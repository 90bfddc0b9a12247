/**
 executeTrustedEffect called over and over on one tenant, each call running to its end, throwing
 after the adapter commit with its writes kept, or being rolled back with the adapter kept.
 `Execute` says what one call does; the class does it step by step on mutable tables.
 */
module TrustedExecutor {
  import opened Wrappers
  import opened Effects

  type Workflow = string

  /** subject_ref and semantic_action_key of a call. */
  datatype Semantic = Semantic(subject: string, action: string)

  datatype Tables = Tables(
    ledger: map<Key, LedgerRow>,
    receipts: map<Key, Receipt>,
    claims: map<Semantic, Workflow>)

  /** The database, the adapter's store outside it, and the supply of fresh ids. */
  datatype System = System(db: Tables, adapter: map<Key, Token>, next: nat)

  const INITIAL: System := System(Tables(map[], map[], map[]), map[], 0)

  /** How the transaction around the call ends. A rollback may strike before or after the adapter
      was reached; in both cases the adapter keeps what it has. */
  datatype Ending = Kept | RolledBackEarly | RolledBackLate

  /** One call: the proposal's identity, what its gates and authority reads answer, the requested
      postcondition status and where it stops. */
  datatype Call = Call(
    key: Key, capability: string, workflow: Workflow, semantic: Option<Semantic>,
    gatesPass: bool, authority: Option<Authority>, reread: Option<Authority>,
    requested: Post, crashAfterCommit: bool, ending: Ending)

  datatype Result =
    | Denied
    | Threw
    | Reported(outcome: Outcome, verification: Verification, receipt: nat, token: Option<Token>)

  predicate ClaimedSuccess(r: Result) {
    r.Reported? && r.outcome.Succeeded?
  }

  // ----- what one call does -----

  function Claim(db: Tables, c: Call): Option<Tables> {
    if c.semantic.None? then Some(db)
    else if c.semantic.value !in db.claims then Some(db.(claims := db.claims[c.semantic.value := c.workflow]))
    else if db.claims[c.semantic.value] == c.workflow then Some(db)
    else None
  }

  function Release(db: Tables, c: Call): Tables {
    if c.semantic.Some? && c.semantic.value in db.claims && db.claims[c.semantic.value] == c.workflow
    then db.(claims := db.claims - {c.semantic.value})
    else db
  }

  /** `completeFromCommitted` plus the release of a claim that did not end in success; a second
      receipt for the key violates UNIQUE(idempotency_key). */
  function Complete(s: System, c: Call, row: LedgerRow): (System, Result) {
    if c.key in s.db.receipts then (s, Threw)
    else
      var p := VerifyPostcondition(s.adapter, c.key, c.requested);
      var v := MapPostcondition(p);
      var db := s.db.(receipts := s.db.receipts[c.key := Receipt(s.next, v, row.token)],
                      ledger := s.db.ledger[c.key := MarkCompleted(row, p, s.next)]);
      var db' := if OutcomeOf(v).Succeeded? then db else Release(db, c);
      (s.(db := db', next := s.next + 1), Reported(OutcomeOf(v), v, s.next, row.token))
  }

  /** A COMPLETED row answers the call without touching the adapter. */
  function Report(s: System, c: Call, row: LedgerRow): (System, Result) {
    if row.outcome.None? || row.post.None? || row.receipt.None? then (s, Threw)
    else
      var db := if row.outcome.value.Succeeded? then s.db else Release(s.db, c);
      (s.(db := db), Reported(row.outcome.value, MapPostcondition(row.post.value), row.receipt.value, row.token))
  }

  /** The adapter or the ledger already holds the commit: rebuild the COMMITTED row if it was lost. */
  function Resume(s: System, c: Call): (System, Result)
    requires c.authority.Some?
  {
    var epochs := (c.authority.value.revocationEpoch, c.authority.value.killEpoch);
    if c.key in s.db.ledger && s.db.ledger[c.key].status.Committed? then Complete(s, c, s.db.ledger[c.key])
    else if c.key !in s.adapter then (s, Threw)
    else
      var row :=
        if c.key !in s.db.ledger then CommittedRow(s.next, c.capability, s.adapter[c.key], epochs)
        else
          var prior := s.db.ledger[c.key];
          MarkCommitted(prior, if prior.token.Some? then prior.token.value else s.adapter[c.key],
                        if prior.epochs.Some? then prior.epochs.value else epochs);
      Complete(s.(db := s.db.(ledger := s.db.ledger[c.key := row]), next := s.next + 1), c, row)
  }

  /** Nothing committed yet: re-check authority, insert PENDING, commit, mark COMMITTED, complete. */
  function FreshPath(s: System, c: Call): (System, Result)
    requires c.authority.Some?
  {
    if c.reread.None? || !CommitAllowed(c.reread.value, c.authority.value) then
      (s.(db := Release(s.db, c)), Denied)
    else
      var pending := if c.key in s.db.ledger then s.db.ledger[c.key] else PendingRow(s.next, c.capability);
      var adapter := if c.key in s.adapter then s.adapter else s.adapter[c.key := s.next + 1];
      var row := MarkCommitted(pending, adapter[c.key], (c.reread.value.revocationEpoch, c.reread.value.killEpoch));
      var s1 := System(s.db.(ledger := s.db.ledger[c.key := row]), adapter, s.next + 2);
      if c.crashAfterCommit then (s1, Threw) else Complete(s1, c, row)
  }

  /** The call up to its return or throw, inside its transaction. */
  function Body(s: System, c: Call): (System, Result) {
    if c.authority.None? || !c.gatesPass then (s, Denied)
    else if Claim(s.db, c).None? then (s, Denied)
    else
      var s1 := s.(db := Claim(s.db, c).value);
      if c.key in s.db.ledger && s.db.ledger[c.key].status.Completed? then Report(s1, c, s.db.ledger[c.key])
      else if (c.key in s.db.ledger && s.db.ledger[c.key].status.Committed?) || c.key in s.adapter then Resume(s1, c)
      else FreshPath(s1, c)
  }

  /** The whole call with the end of its transaction: a rollback undoes the tables, never the adapter. */
  function Execute(s: System, c: Call): (System, Result) {
    var (s1, r) := Body(s, c);
    match c.ending
    case Kept => (s1, r)
    case RolledBackEarly => (s, Threw)
    case RolledBackLate => (s1.(db := s.db), Threw)
  }

  function Run(s: System, cs: seq<Call>): System
    decreases |cs|
  {
    if cs == [] then s else Execute(Run(s, cs[..|cs| - 1]), cs[|cs| - 1]).0
  }

  /** What the i-th call of a run reports. */
  function ResultAt(cs: seq<Call>, i: nat): Result
    requires i < |cs|
  {
    Execute(Run(INITIAL, cs[..i]), cs[i]).1
  }

  // ----- the same, as the program does it -----

  class Executor {
    var ledger: map<Key, LedgerRow>
    var receipts: map<Key, Receipt>
    var claims: map<Semantic, Workflow>
    var adapter: map<Key, Token>
    var next: nat

    constructor ()
      ensures Snapshot() == INITIAL
    {
      ledger, receipts, claims, adapter, next := map[], map[], map[], map[], 0;
    }

    function Snapshot(): System
      reads this
    {
      System(Tables(ledger, receipts, claims), adapter, next)
    }

    method ClaimSemanticAction(c: Call) returns (held: bool)
      modifies this`claims
      ensures held == Claim(old(Snapshot()).db, c).Some?
      ensures Snapshot().db == if held then Claim(old(Snapshot()).db, c).value else old(Snapshot()).db
    {
      held := true;
      if c.semantic.Some? {
        if c.semantic.value in claims {
          held := claims[c.semantic.value] == c.workflow;
        } else {
          claims := claims[c.semantic.value := c.workflow];
        }
      }
    }

    method ReleaseSemanticClaim(c: Call)
      modifies this`claims
      ensures Snapshot().db == Release(old(Snapshot()).db, c)
    {
      if c.semantic.Some? && c.semantic.value in claims && claims[c.semantic.value] == c.workflow {
        claims := claims - {c.semantic.value};
      }
    }

    /** The adapter's `commit`: a key already present keeps its record. */
    method CommitToAdapter(key: Key, candidate: Token) returns (token: Token, alreadyPresent: bool)
      modifies this`adapter
      ensures alreadyPresent == (key in old(adapter))
      ensures adapter == if alreadyPresent then old(adapter) else old(adapter)[key := candidate]
      ensures key in adapter && adapter[key] == token
    {
      alreadyPresent := key in adapter;
      if !alreadyPresent {
        adapter := adapter[key := candidate];
      }
      token := adapter[key];
    }

    method CompleteFromCommitted(c: Call, row: LedgerRow) returns (r: Result)
      modifies this
      ensures (Snapshot(), r) == Complete(old(Snapshot()), c, row)
    {
      if c.key in receipts {
        return Threw;
      }
      var p := VerifyPostcondition(adapter, c.key, c.requested);
      var v := MapPostcondition(p);
      var id := next;
      next := next + 1;
      receipts := receipts[c.key := Receipt(id, v, row.token)];
      ledger := ledger[c.key := MarkCompleted(row, p, id)];
      if !OutcomeOf(v).Succeeded? {
        ReleaseSemanticClaim(c);
      }
      r := Reported(OutcomeOf(v), v, id, row.token);
    }

    method ResumeCommitted(c: Call) returns (r: Result)
      requires c.authority.Some?
      modifies this
      ensures (Snapshot(), r) == Resume(old(Snapshot()), c)
    {
      var epochs := (c.authority.value.revocationEpoch, c.authority.value.killEpoch);
      if c.key in ledger && ledger[c.key].status.Committed? {
        r := CompleteFromCommitted(c, ledger[c.key]);
        return;
      }
      if c.key !in adapter {
        return Threw;
      }
      if c.key !in ledger {
        ledger := ledger[c.key := CommittedRow(next, c.capability, adapter[c.key], epochs)];
      } else {
        var row := ledger[c.key];
        ledger := ledger[c.key := MarkCommitted(row, if row.token.Some? then row.token.value else adapter[c.key],
                                                if row.epochs.Some? then row.epochs.value else epochs)];
      }
      next := next + 1;
      r := CompleteFromCommitted(c, ledger[c.key]);
    }

    method CommitFresh(c: Call) returns (r: Result)
      requires c.authority.Some?
      modifies this
      ensures (Snapshot(), r) == FreshPath(old(Snapshot()), c)
    {
      if c.reread.None? || !CommitAllowed(c.reread.value, c.authority.value) {
        ReleaseSemanticClaim(c);
        return Denied;
      }
      if c.key !in ledger {
        ledger := ledger[c.key := PendingRow(next, c.capability)];
      }
      var row := ledger[c.key];
      var token, _ := CommitToAdapter(c.key, next + 1);
      next := next + 2;
      var committed := MarkCommitted(row, token, (c.reread.value.revocationEpoch, c.reread.value.killEpoch));
      ledger := ledger[c.key := committed];
      assert ledger == old(ledger)[c.key := committed];
      if c.crashAfterCommit {
        return Threw;
      }
      r := CompleteFromCommitted(c, ledger[c.key]);
    }

    method ExecuteTrustedEffect(c: Call) returns (r: Result)
      modifies this
      ensures (Snapshot(), r) == Body(old(Snapshot()), c)
    {
      if c.authority.None? || !c.gatesPass {
        return Denied;
      }
      var held := ClaimSemanticAction(c);
      if !held {
        return Denied;
      }
      if c.key in ledger && ledger[c.key].status.Completed? {
        var row := ledger[c.key];
        if row.outcome.None? || row.post.None? || row.receipt.None? {
          return Threw;
        }
        if !row.outcome.value.Succeeded? {
          ReleaseSemanticClaim(c);
        }
        r := Reported(row.outcome.value, MapPostcondition(row.post.value), row.receipt.value, row.token);
      } else if (c.key in ledger && ledger[c.key].status.Committed?) || c.key in adapter {
        r := ResumeCommitted(c);
      } else {
        r := CommitFresh(c);
      }
    }

    /** The transaction around the call: commit, or restore the tables as they were at BEGIN. */
    method InTransaction(c: Call) returns (r: Result)
      modifies this
      ensures (Snapshot(), r) == Execute(old(Snapshot()), c)
    {
      if c.ending.RolledBackEarly? {
        return Threw;
      }
      var ledger0, receipts0, claims0 := ledger, receipts, claims;
      r := ExecuteTrustedEffect(c);
      if c.ending.RolledBackLate? {
        ledger, receipts, claims := ledger0, receipts0, claims0;
        r := Threw;
      }
    }
  }

  // ----- every run -----

  predicate KeyInv(s: System, k: Key) {
    && (k in s.db.ledger ==>
          Settled(s.adapter, k, s.db.ledger[k]) && (s.db.ledger[k].status.Completed? <==> k in s.db.receipts))
    && (k in s.db.receipts ==> k in s.db.ledger && Agree(s.db.ledger[k], s.db.receipts[k]))
  }

  ghost predicate Inv(s: System) {
    forall k :: KeyInv(s, k)
  }

  /** Nothing that is settled for `k` is ever undone or rewritten. */
  predicate KeyExtends(s: System, s': System, k: Key) {
    && (k in s.adapter ==> k in s'.adapter && s'.adapter[k] == s.adapter[k])
    && (k in s.db.receipts ==> k in s'.db.receipts && s'.db.receipts[k] == s.db.receipts[k])
    && (k in s.db.ledger && s.db.ledger[k].status.Completed? ==> k in s'.db.ledger && s'.db.ledger[k] == s.db.ledger[k])
  }

  /** Completing a COMMITTED row that carries the adapter's token keeps everything settled. */
  lemma CompleteKeeps(s: System, c: Call, row: LedgerRow, k: Key)
    requires KeyInv(s, k) && KeyInv(s, c.key) && c.key in s.db.ledger && s.db.ledger[c.key] == row && row.status.Committed?
    ensures KeyInv(Complete(s, c, row).0, k) && KeyExtends(s, Complete(s, c, row).0, k)
    ensures Complete(s, c, row).1.Reported?
  {
  }

  lemma ResumeKeeps(s: System, c: Call, k: Key)
    requires KeyInv(s, k) && KeyInv(s, c.key) && c.authority.Some? && c.key in s.adapter
    requires c.key in s.db.ledger ==> s.db.ledger[c.key].status.Committed?
    ensures KeyInv(Resume(s, c).0, k) && KeyExtends(s, Resume(s, c).0, k)
    ensures Resume(s, c).1.Reported?
  {
    if c.key in s.db.ledger {
      CompleteKeeps(s, c, s.db.ledger[c.key], k);
    } else {
      var row := CommittedRow(s.next, c.capability, s.adapter[c.key], (c.authority.value.revocationEpoch, c.authority.value.killEpoch));
      CompleteKeeps(s.(db := s.db.(ledger := s.db.ledger[c.key := row]), next := s.next + 1), c, row, k);
    }
  }

  lemma FreshKeeps(s: System, c: Call, k: Key)
    requires KeyInv(s, k) && KeyInv(s, c.key) && c.authority.Some? && c.key !in s.adapter
    ensures KeyInv(FreshPath(s, c).0, k) && KeyExtends(s, FreshPath(s, c).0, k)
  {
    if c.reread.Some? && CommitAllowed(c.reread.value, c.authority.value) {
      var row := MarkCommitted(PendingRow(s.next, c.capability), s.next + 1, (c.reread.value.revocationEpoch, c.reread.value.killEpoch));
      var s1 := System(s.db.(ledger := s.db.ledger[c.key := row]), s.adapter[c.key := s.next + 1], s.next + 2);
      assert KeyInv(s1, k) && KeyInv(s1, c.key);
      CompleteKeeps(s1, c, row, k);
    }
  }

  lemma BodyKeeps(s: System, c: Call, k: Key)
    requires KeyInv(s, k) && KeyInv(s, c.key)
    ensures KeyInv(Body(s, c).0, k) && KeyExtends(s, Body(s, c).0, k)
  {
    if c.authority.Some? && c.gatesPass && Claim(s.db, c).Some? {
      var s1 := s.(db := Claim(s.db, c).value);
      assert KeyInv(s1, k) && KeyInv(s1, c.key);
      if c.key in s.db.ledger && s.db.ledger[c.key].status.Completed? {
      } else if (c.key in s.db.ledger && s.db.ledger[c.key].status.Committed?) || c.key in s.adapter {
        ResumeKeeps(s1, c, k);
      } else {
        FreshKeeps(s1, c, k);
      }
    }
  }

  /** Rolling the tables back leaves a larger adapter, which settled rows do not mind. */
  lemma RollbackKeeps(s: System, s1: System, k: Key)
    requires KeyInv(s, k) && KeyExtends(s, s1, k)
    ensures KeyInv(s1.(db := s.db), k) && KeyExtends(s, s1.(db := s.db), k)
  {
  }

  lemma ExecuteKeeps(s: System, c: Call, k: Key)
    requires Inv(s)
    ensures KeyInv(Execute(s, c).0, k) && KeyExtends(s, Execute(s, c).0, k)
  {
    assert KeyInv(s, k) && KeyInv(s, c.key);
    match c.ending
    case Kept => BodyKeeps(s, c, k);
    case RolledBackEarly =>
    case RolledBackLate =>
      BodyKeeps(s, c, k);
      RollbackKeeps(s, Body(s, c).0, k);
  }

  lemma {:induction false} RunKeeps(cs: seq<Call>)
    ensures Inv(Run(INITIAL, cs))
    decreases |cs|
  {
    if cs != [] {
      var s := Run(INITIAL, cs[..|cs| - 1]);
      RunKeeps(cs[..|cs| - 1]);
      forall k ensures KeyInv(Run(INITIAL, cs), k) { ExecuteKeeps(s, cs[|cs| - 1], k); }
    }
  }

  lemma {:induction false} RunExtends(cs: seq<Call>, i: nat, k: Key)
    requires i <= |cs|
    ensures KeyExtends(Run(INITIAL, cs[..i]), Run(INITIAL, cs), k)
    decreases |cs|
  {
    if i == |cs| {
      assert cs[..i] == cs;
    } else {
      var init := cs[..|cs| - 1];
      RunExtends(init, i, k);
      assert init[..i] == cs[..i];
      RunKeeps(init);
      ExecuteKeeps(Run(INITIAL, init), cs[|cs| - 1], k);
    }
  }

  /** In every reachable state a row is COMPLETED exactly when its key has a receipt; its outcome is
      SUCCEEDED exactly when that receipt is VERIFIED; every row carries the adapter's one token. */
  lemma LedgerMatchesReceipts(cs: seq<Call>, k: Key)
    ensures var s := Run(INITIAL, cs);
      && (k in s.db.ledger ==> Settled(s.adapter, k, s.db.ledger[k]) && (s.db.ledger[k].status.Completed? <==> k in s.db.receipts))
      && (k in s.db.receipts ==> k in s.db.ledger && Agree(s.db.ledger[k], s.db.receipts[k]))
      && (k in s.db.receipts ==> (s.db.ledger[k].outcome == Some(Succeeded) <==> s.db.receipts[k].verification.VVerified?))
  {
    RunKeeps(cs);
    assert KeyInv(Run(INITIAL, cs), k);
  }

  /** The answer a receipt stands for. */
  function Answer(r: Receipt): Result {
    Reported(OutcomeOf(r.verification), r.verification, r.id, r.token)
  }

  /** A call that reports anything reports the receipt its key has from then on. */
  lemma ReportedFromRow(s: System, c: Call)
    requires Inv(s) && Execute(s, c).1.Reported?
    ensures c.key in Execute(s, c).0.db.receipts && Execute(s, c).1 == Answer(Execute(s, c).0.db.receipts[c.key])
  {
    assert KeyInv(s, c.key);
  }

  lemma ReportedAt(cs: seq<Call>, i: nat)
    requires i < |cs| && ResultAt(cs, i).Reported?
    ensures cs[i].key in Run(INITIAL, cs[..i + 1]).db.receipts
    ensures ResultAt(cs, i) == Answer(Run(INITIAL, cs[..i + 1]).db.receipts[cs[i].key])
  {
    assert cs[..i + 1][..i] == cs[..i];
    RunKeeps(cs[..i]);
    ReportedFromRow(Run(INITIAL, cs[..i]), cs[i]);
  }

  /** All calls of one key that report anything report the same outcome, verification status, receipt
      and commit token, however many denials, crashes and rollbacks lie between them. */
  lemma ReportsAgree(cs: seq<Call>, i: nat, j: nat)
    requires i <= j < |cs| && cs[i].key == cs[j].key
    requires ResultAt(cs, i).Reported? && ResultAt(cs, j).Reported?
    ensures ResultAt(cs, i) == ResultAt(cs, j)
  {
    ReportedAt(cs, i);
    ReportedAt(cs, j);
    RunExtends(cs[..j + 1], i + 1, cs[i].key);
    assert cs[..j + 1][..i + 1] == cs[..i + 1];
  }

  /** A call that returns without a denial on a completed key answers exactly from the stored receipt. */
  lemma CompletedAnswers(cs: seq<Call>, i: nat)
    requires i < |cs| && cs[i].key in Run(INITIAL, cs[..i]).db.receipts && cs[i].ending.Kept?
    ensures ResultAt(cs, i).Denied? || ResultAt(cs, i) == Answer(Run(INITIAL, cs[..i]).db.receipts[cs[i].key])
  {
    RunKeeps(cs[..i]);
    assert KeyInv(Run(INITIAL, cs[..i]), cs[i].key);
  }

  /** Receipt ids, effect ids and tokens are below the supply, and different keys have different ones. */
  predicate IdsOk(s: System, k: Key, j: Key) {
    && (k in s.db.receipts ==> s.db.receipts[k].id < s.next && (j in s.db.receipts && j != k ==> s.db.receipts[j].id != s.db.receipts[k].id))
    && (k in s.db.ledger ==> s.db.ledger[k].effectId < s.next && (j in s.db.ledger && j != k ==> s.db.ledger[j].effectId != s.db.ledger[k].effectId))
    && (k in s.adapter ==> s.adapter[k] < s.next && (j in s.adapter && j != k ==> s.adapter[j] != s.adapter[k]))
  }

  /** A call draws its ids from the supply, which never shrinks. */
  predicate Draws(s: System, s': System, k: Key) {
    && s.next <= s'.next
    && (s'.db.receipts == s.db.receipts
        || (k in s'.db.receipts && s'.db.receipts == s.db.receipts[k := s'.db.receipts[k]] && s.next <= s'.db.receipts[k].id < s'.next))
    && (s'.adapter == s.adapter || (k in s'.adapter && s'.adapter == s.adapter[k := s'.adapter[k]] && s.next <= s'.adapter[k] < s'.next))
    && (s'.db.ledger == s.db.ledger
        || (k in s'.db.ledger && s'.db.ledger == s.db.ledger[k := s'.db.ledger[k]]
            && if k in s.db.ledger then s'.db.ledger[k].effectId == s.db.ledger[k].effectId else s.next <= s'.db.ledger[k].effectId < s'.next))
  }

  lemma ResumeDraws(s: System, c: Call)
    requires c.authority.Some?
    ensures Draws(s, Resume(s, c).0, c.key)
  {
  }

  lemma FreshDraws(s: System, c: Call)
    requires c.authority.Some?
    ensures Draws(s, FreshPath(s, c).0, c.key)
  {
  }

  lemma ReportDraws(s: System, c: Call, row: LedgerRow)
    ensures Draws(s, Report(s, c, row).0, c.key)
  {
  }

  /** Draws looks at neither the claims nor rolled-back tables. */
  lemma DrawsAlike(s: System, s1: System, s': System, k: Key)
    requires Draws(s1, s', k) && s1 == s.(db := s1.db) && s1.db == s.db.(claims := s1.db.claims)
    ensures Draws(s, s', k) && Draws(s, s'.(db := s.db), k)
  {
  }

  lemma BodyDraws(s: System, c: Call)
    ensures Draws(s, Body(s, c).0, c.key) && Draws(s, Body(s, c).0.(db := s.db), c.key)
  {
    if c.authority.Some? && c.gatesPass && Claim(s.db, c).Some? {
      var s1 := s.(db := Claim(s.db, c).value);
      if c.key in s.db.ledger && s.db.ledger[c.key].status.Completed? {
        ReportDraws(s1, c, s.db.ledger[c.key]);
      } else if (c.key in s.db.ledger && s.db.ledger[c.key].status.Committed?) || c.key in s.adapter {
        ResumeDraws(s1, c);
      } else {
        FreshDraws(s1, c);
      }
      DrawsAlike(s, s1, Body(s, c).0, c.key);
    }
  }

  lemma ExecuteDraws(s: System, c: Call)
    ensures Draws(s, Execute(s, c).0, c.key)
  {
    BodyDraws(s, c);
  }

  lemma DrawnIds(s: System, s': System, key: Key, k: Key, j: Key)
    requires IdsOk(s, k, j) && IdsOk(s, j, k) && Draws(s, s', key)
    ensures IdsOk(s', k, j)
  {
  }

  /** In every reachable state receipt ids, effect ids and commit tokens of different keys differ. */
  lemma {:induction false} IdsDistinct(cs: seq<Call>, k: Key, j: Key)
    ensures IdsOk(Run(INITIAL, cs), k, j)
    decreases |cs|
  {
    if cs != [] {
      IdsDistinct(cs[..|cs| - 1], k, j);
      IdsDistinct(cs[..|cs| - 1], j, k);
      var s, c := Run(INITIAL, cs[..|cs| - 1]), cs[|cs| - 1];
      ExecuteDraws(s, c);
      DrawnIds(s, Execute(s, c).0, c.key, k, j);
    }
  }

  // ----- what a single call comes to -----

  /** The gates let the call through, authority could be read, and its action is free or its own. */
  predicate Admitted(s: System, c: Call) {
    && c.gatesPass && c.authority.Some?
    && (c.semantic.Some? && c.semantic.value in s.db.claims ==> s.db.claims[c.semantic.value] == c.workflow)
  }

  /** Authority was in force, active and unchanged when it was read again. */
  predicate Reauthorised(c: Call) {
    && c.authority.Some? && c.reread.Some? && c.reread.value.active
    && c.reread.value.revocationEpoch == c.authority.value.revocationEpoch
    && c.reread.value.killEpoch == c.authority.value.killEpoch
  }

  predicate Done(s: System, k: Key) {
    k in s.db.ledger && s.db.ledger[k].status.Completed?
  }

  /** A call reaches the adapter exactly when it is admitted, its key is new and authority holds at the re-read;
      the adapter then gains that key and nothing else, and in no other case anything. */
  lemma CommitsExactlyWhen(s: System, c: Call)
    requires Inv(s)
    ensures var s' := Execute(s, c).0;
      && (s'.adapter != s.adapter <==> !c.ending.RolledBackEarly? && Admitted(s, c) && c.key !in s.adapter && Reauthorised(c))
      && (s'.adapter == s.adapter || (c.key in s'.adapter && s'.adapter == s.adapter[c.key := s'.adapter[c.key]]))
  {
    assert KeyInv(s, c.key);
  }

  /** A call reports exactly when its transaction is kept, it is admitted, and its key is completed, already in the
      adapter, or committed now without a crash. It is denied exactly when it is not admitted, or not
      re-authorised for a new key. */
  lemma AnswersExactlyWhen(s: System, c: Call)
    requires Inv(s)
    ensures var r := Execute(s, c).1;
      && (r.Reported? <==> c.ending.Kept? && Admitted(s, c) && (c.key in s.adapter || (Reauthorised(c) && !c.crashAfterCommit)))
      && (r.Denied? <==> c.ending.Kept? && (!Admitted(s, c) || (c.key !in s.adapter && !Reauthorised(c))))
  {
    assert KeyInv(s, c.key);
  }

  /** What a call reports about a key that was not completed before: success exactly when the postcondition was to
      be read from the adapter, failure when it was given as FAILED, ambiguity otherwise; with the adapter's
      token and a new receipt. */
  lemma FirstReport(s: System, c: Call)
    requires Inv(s) && Execute(s, c).1.Reported? && !Done(s, c.key)
    ensures var (s', r) := Execute(s, c);
      && (r.outcome.Succeeded? <==> c.requested.Verified? || c.requested.Unverified?)
      && (r.outcome.NotSucceeded? <==> c.requested.Failed?)
      && (r.verification == match r.outcome case Succeeded => VVerified case NotSucceeded => VFailed case OutcomeAmbiguous => VAmbiguous)
      && c.key in s'.adapter && r.token == Some(s'.adapter[c.key]) && c.key !in s.db.receipts && r.receipt >= s.next
      && c.key in s'.db.ledger && s'.db.ledger[c.key].post == Some(match c.requested
                                                                  case Unverified => Verified case Absent => Unknown case other => other)
  {
    assert KeyInv(s, c.key);
  }

  /** `k` is another key than the call's and `a` another action: their rows, receipts and claims are the same. */
  predicate SameBeside(db: Tables, db': Tables, c: Call, k: Key, a: Semantic) {
    && (k != c.key ==> (k in db'.ledger <==> k in db.ledger) && (k in db.ledger ==> db'.ledger[k] == db.ledger[k]))
    && (k != c.key ==> (k in db'.receipts <==> k in db.receipts) && (k in db.receipts ==> db'.receipts[k] == db.receipts[k]))
    && (Some(a) != c.semantic ==> (a in db'.claims <==> a in db.claims) && (a in db.claims ==> db'.claims[a] == db.claims[a]))
  }

  lemma ResumeBeside(s: System, c: Call, k: Key, a: Semantic)
    requires c.authority.Some?
    ensures SameBeside(s.db, Resume(s, c).0.db, c, k, a)
  {
  }

  lemma FreshBeside(s: System, c: Call, k: Key, a: Semantic)
    requires c.authority.Some?
    ensures SameBeside(s.db, FreshPath(s, c).0.db, c, k, a)
  {
  }

  /** A call writes no other key's row or receipt and no other action's claim, and nothing at all if it is not
      admitted, or rolled back. */
  lemma CallsMindTheirOwn(s: System, c: Call, k: Key, a: Semantic)
    ensures var s' := Execute(s, c).0;
      && SameBeside(s.db, s'.db, c, k, a)
      && (!Admitted(s, c) ==> s'.db == s.db && s'.adapter == s.adapter)
      && (!c.ending.Kept? ==> s'.db == s.db)
  {
    if Admitted(s, c) {
      var s1 := s.(db := Claim(s.db, c).value);
      assert SameBeside(s.db, s1.db, c, k, a);
      ResumeBeside(s1, c, k, a);
      FreshBeside(s1, c, k, a);
    }
  }

  /** In every run a call that a gate denies, or whose authority cannot be read, reports nothing and leaves ledger,
      receipts, claims and adapter exactly as they were. */
  lemma DeniedCallsDoNothing(cs: seq<Call>, i: nat)
    requires i < |cs| && (!cs[i].gatesPass || cs[i].authority.None?)
    ensures !ResultAt(cs, i).Reported?
    ensures Run(INITIAL, cs[..i + 1]).db == Run(INITIAL, cs[..i]).db && Run(INITIAL, cs[..i + 1]).adapter == Run(INITIAL, cs[..i]).adapter
  {
    var c := cs[i];
    assert cs[..i + 1][..i] == cs[..i];
    RunKeeps(cs[..i]);
    AnswersExactlyWhen(Run(INITIAL, cs[..i]), c);
    CallsMindTheirOwn(Run(INITIAL, cs[..i]), c, c.key, Semantic("", ""));
  }

  /** After a kept and admitted call its action is claimed, by its workflow, exactly when the call succeeded or
      threw. */
  lemma HoldsTheActionExactlyWhen(s: System, c: Call)
    requires Inv(s) && c.ending.Kept? && Admitted(s, c) && c.semantic.Some?
    ensures var (s', r) := Execute(s, c);
      && (c.semantic.value in s'.db.claims <==> ClaimedSuccess(r) || r.Threw?)
      && (c.semantic.value in s'.db.claims ==> s'.db.claims[c.semantic.value] == c.workflow)
  {
    assert KeyInv(s, c.key);
  }

  /** What a fresh commit writes into the ledger: the call's capability, the adapter's token and the epochs of the
      re-read; a row rebuilt from the adapter carries the epochs of the decision. */
  lemma RowRecords(s: System, c: Call)
    requires Inv(s) && c.ending.Kept? && Admitted(s, c) && c.key !in s.db.ledger
    ensures var s' := Execute(s, c).0;
      c.key in s'.db.ledger ==>
        && s'.db.ledger[c.key].capability == c.capability
        && s'.db.ledger[c.key].epochs == if c.key in s.adapter then Some((c.authority.value.revocationEpoch, c.authority.value.killEpoch))
                                         else Some((c.reread.value.revocationEpoch, c.reread.value.killEpoch))
  {
    assert KeyInv(s, c.key);
  }

  // ----- semantic actions -----

  /** Every workflow uses a semantic action for one idempotency key only. */
  ghost predicate OneKeyPerAction(cs: seq<Call>) {
    forall i, j | 0 <= i < |cs| && 0 <= j < |cs| ::
      cs[i].semantic.Some? && cs[i].semantic == cs[j].semantic && cs[i].workflow == cs[j].workflow ==> cs[i].key == cs[j].key
  }

  /** A success claimed for an action is backed by the standing claim and a SUCCEEDED row. */
  predicate Backed(s: System, c: Call) {
    && c.semantic.Some? && c.semantic.value in s.db.claims && s.db.claims[c.semantic.value] == c.workflow
    && c.key in s.db.ledger && s.db.ledger[c.key].status.Completed? && s.db.ledger[c.key].outcome == Some(Succeeded)
  }

  lemma SuccessIsBacked(s: System, c: Call)
    requires Inv(s) && c.semantic.Some? && ClaimedSuccess(Execute(s, c).1)
    ensures Backed(Execute(s, c).0, c)
  {
    assert KeyInv(s, c.key);
  }

  /** A requested status the adapter answers from its store, so with VERIFIED for a committed key. */
  predicate Confirms(requested: Post) {
    requested.Verified? || requested.Unverified?
  }

  /** The call would end on a branch that gives its claim back: a completed row that is not SUCCEEDED, a
      held key not observed VERIFIED, a denied re-read, or a fresh commit not observed VERIFIED. */
  predicate Releases(s: System, d: Call) {
    if d.key in s.db.ledger && s.db.ledger[d.key].status.Completed? then s.db.ledger[d.key].outcome != Some(Succeeded)
    else if d.key in s.adapter then !Confirms(d.requested)
    else if d.authority.None? || d.reread.None? || !CommitAllowed(d.reread.value, d.authority.value) then true
    else !d.crashAfterCommit && !Confirms(d.requested)
  }

  /** The call `d` takes away the claim the success of `c` stands on. */
  predicate Drops(s: System, c: Call, d: Call) {
    && d.semantic == c.semantic && d.workflow == c.workflow
    && d.ending.Kept? && d.authority.Some? && d.gatesPass && Releases(s, d)
  }

  /** A backed success loses its claim exactly by a kept call of the same workflow for the same action that
      passes its gates and ends on a releasing branch. */
  lemma LosesTheClaimExactlyWhen(s: System, c: Call, d: Call)
    requires Inv(s) && Backed(s, c)
    ensures !Backed(Execute(s, d).0, c) <==> Drops(s, c, d)
    ensures Drops(s, c, d) ==> c.semantic.value !in Execute(s, d).0.db.claims
  {
    assert KeyInv(s, c.key) && KeyInv(s, d.key);
    ExecuteKeeps(s, d, c.key);
  }

  lemma BackedKeepsOthersOut(s: System, c: Call, other: Call)
    requires Backed(s, c) && other.semantic == c.semantic && other.workflow != c.workflow
    ensures !ClaimedSuccess(Execute(s, other).1)
  {
  }

  lemma {:induction false} NextRelease(cs: seq<Call>, i: nat, n: nat, j: nat) returns (m: nat)
    requires i < n <= j < |cs| && cs[i].semantic == cs[j].semantic && cs[i].workflow != cs[j].workflow
    requires Backed(Run(INITIAL, cs[..n]), cs[i]) && ClaimedSuccess(ResultAt(cs, j))
    ensures n <= m < j && Backed(Run(INITIAL, cs[..m]), cs[i]) && Drops(Run(INITIAL, cs[..m]), cs[i], cs[m])
    decreases j - n
  {
    if n == j {
      BackedKeepsOthersOut(Run(INITIAL, cs[..j]), cs[i], cs[j]);
      assert false;
    } else if Drops(Run(INITIAL, cs[..n]), cs[i], cs[n]) {
      m := n;
    } else {
      RunKeeps(cs[..n]);
      LosesTheClaimExactlyWhen(Run(INITIAL, cs[..n]), cs[i], cs[n]);
      assert cs[..n + 1][..n] == cs[..n];
      m := NextRelease(cs, i, n + 1, j);
    }
  }

  /** Two workflows both get claimed_success for an action only if between them the first one, its success
      still backed, made a call that gave its claim back. */
  lemma SecondWorkflowNeedsARelease(cs: seq<Call>, i: nat, j: nat) returns (m: nat)
    requires i < j < |cs| && cs[i].semantic.Some? && cs[i].semantic == cs[j].semantic && cs[i].workflow != cs[j].workflow
    requires ClaimedSuccess(ResultAt(cs, i)) && ClaimedSuccess(ResultAt(cs, j))
    ensures i < m < j && Backed(Run(INITIAL, cs[..m]), cs[i]) && Drops(Run(INITIAL, cs[..m]), cs[i], cs[m])
  {
    RunKeeps(cs[..i]);
    SuccessIsBacked(Run(INITIAL, cs[..i]), cs[i]);
    assert cs[..i + 1][..i] == cs[..i];
    m := NextRelease(cs, i, i + 1, j);
  }

  lemma DroppingNeedsAnotherKey(s: System, c: Call, d: Call)
    requires Backed(s, c) && Drops(s, c, d)
    ensures d.key != c.key
  {
  }

  /** Over any run with denials, ambiguous outcomes, releases and crashes in which every workflow uses an action
      for one key only, at most one workflow ever gets claimed_success for a subject and semantic action. */
  lemma OneWorkflowPerAction(cs: seq<Call>, i: nat, j: nat)
    requires i < j < |cs| && OneKeyPerAction(cs)
    requires cs[i].semantic.Some? && cs[i].semantic == cs[j].semantic
    requires ClaimedSuccess(ResultAt(cs, i)) && ClaimedSuccess(ResultAt(cs, j))
    ensures cs[i].workflow == cs[j].workflow
  {
    if cs[i].workflow != cs[j].workflow {
      var m := SecondWorkflowNeedsARelease(cs, i, j);
      DroppingNeedsAnotherKey(Run(INITIAL, cs[..m]), cs[i], cs[m]);
      assert false;
    }
  }

  /** A call that nothing denies or interrupts. */
  predicate Unhindered(c: Call) {
    && c.ending.Kept? && !c.crashAfterCommit && c.gatesPass
    && c.authority.Some? && c.reread == c.authority && c.authority.value.active
  }

  /** An unhindered call of an untouched key whose action is free or its own: what it reports, and who
      holds the action afterwards. */
  lemma FreshCall(s: System, c: Call)
    requires Unhindered(c) && c.key !in s.db.ledger && c.key !in s.adapter && c.key !in s.db.receipts
    requires c.semantic.Some? && (c.semantic.value !in s.db.claims || s.db.claims[c.semantic.value] == c.workflow)
    requires c.requested.Verified? || c.requested.Ambiguous?
    ensures var (s', r) := Execute(s, c);
      && s'.db.ledger.Keys == s.db.ledger.Keys + {c.key} && s'.adapter.Keys == s.adapter.Keys + {c.key}
      && s'.db.receipts.Keys == s.db.receipts.Keys + {c.key}
      && (ClaimedSuccess(r) <==> c.requested.Verified?)
      && (c.semantic.value in s'.db.claims <==> c.requested.Verified?)
      && (c.requested.Verified? ==> s'.db.claims[c.semantic.value] == c.workflow)
  {
  }

  /** After any call `d`, an unhindered call of another workflow for the action, on a key nobody used, claims
      success too exactly when `d` gave the first workflow's claim back. */
  lemma SecondSuccessExactlyWhen(s: System, c: Call, d: Call, other: Call)
    requires Inv(s) && Backed(s, c)
    requires Unhindered(other) && other.requested.Verified? && other.semantic == c.semantic && other.workflow != c.workflow
    requires var s' := Execute(s, d).0; other.key !in s'.db.ledger && other.key !in s'.adapter && other.key !in s'.db.receipts
    ensures ClaimedSuccess(Execute(Execute(s, d).0, other).1) <==> Drops(s, c, d)
  {
    LosesTheClaimExactlyWhen(s, c, d);
    if Drops(s, c, d) { FreshCall(Execute(s, d).0, other); }
  }

  /** For instance: whenever a workflow that succeeded uses the action for a second key and that ends
      AMBIGUOUS, any other workflow can claim success for the action too. */
  lemma SecondKeyFreesTheClaim(c0: Call, c1: Call, c2: Call)
    requires Unhindered(c0) && Unhindered(c1) && Unhindered(c2)
    requires c0.semantic.Some? && c0.semantic == c1.semantic == c2.semantic
    requires c0.workflow == c1.workflow && c0.key != c1.key && c2.key != c0.key && c2.key != c1.key
    requires c0.requested.Verified? && c1.requested.Ambiguous? && c2.requested.Verified?
    ensures ClaimedSuccess(ResultAt([c0, c1, c2], 0)) && ClaimedSuccess(ResultAt([c0, c1, c2], 2))
  {
    var cs := [c0, c1, c2];
    assert cs[..0] == [] && cs[..2] == [c0, c1];
    FreshCall(INITIAL, c0);
    ClaimIsFree(c0, c1);
    FreshCall(Run(INITIAL, [c0, c1]), c2);
  }

  /** After the success and the ambiguous second key nobody holds the action. */
  lemma ClaimIsFree(c0: Call, c1: Call)
    requires Unhindered(c0) && Unhindered(c1) && c0.semantic.Some? && c0.semantic == c1.semantic
    requires c0.workflow == c1.workflow && c0.key != c1.key && c0.requested.Verified? && c1.requested.Ambiguous?
    ensures var s := Run(INITIAL, [c0, c1]);
      && s.db.ledger.Keys == s.adapter.Keys == s.db.receipts.Keys == {c0.key, c1.key}
      && c0.semantic.value !in s.db.claims
  {
    var s1 := Execute(INITIAL, c0).0;
    FreshCall(INITIAL, c0);
    assert [c0][..0] == [] && [c0, c1][..1] == [c0];
    assert Run(INITIAL, [c0]) == s1;
    FreshCall(s1, c1);
  }
}
