/**
 The vocabulary shared by everything that touches an external effect: the local_fake adapter's
 store, the authority record, effect-ledger rows and receipts, and the pure decisions over them.
 */
module Effects {
  import opened Wrappers

  type Key = string        // idempotency key
  type Token = nat         // adapter commit token (a fresh UUID in the program)

  /** Postcondition statuses an adapter, a caller or a ledger row can name. */
  datatype Post = Verified | Unverified | Ambiguous | Unknown | Failed | Absent

  /** `verification_status` of a receipt. */
  datatype Verification = VVerified | VUnverified | VAmbiguous | VFailed

  datatype Outcome = Succeeded | NotSucceeded | OutcomeAmbiguous

  datatype Authority = Authority(active: bool, revocationEpoch: int, killEpoch: int)

  datatype LedgerStatus = Pending | Committed | Completed

  datatype LedgerRow = LedgerRow(
    effectId: nat,
    capability: string,
    status: LedgerStatus,
    token: Option<Token>,
    epochs: Option<(int, int)>,
    post: Option<Post>,
    receipt: Option<nat>,
    outcome: Option<Outcome>)

  datatype Receipt = Receipt(id: nat, verification: Verification, token: Option<Token>)

  /** The adapter's `verifyPostcondition`: a requested status of VERIFIED or UNVERIFIED is answered
      from the store, every other requested status is echoed. */
  function VerifyPostcondition(store: map<Key, Token>, key: Key, requested: Post): (p: Post)
    ensures p.Verified? <==> key in store && (requested.Verified? || requested.Unverified?)
    ensures !p.Unverified?
    ensures p == requested || ((requested.Verified? || requested.Unverified?) && (p.Verified? || p.Absent?))
  {
    match requested
    case Absent => Absent
    case Unknown => Unknown
    case Ambiguous => Ambiguous
    case Failed => Failed
    case _ => if key in store then Verified else Absent
  }

  function MapPostcondition(p: Post): Verification {
    match p
    case Verified => VVerified
    case Failed => VFailed
    case Unverified => VUnverified
    case _ => VAmbiguous
  }

  function OutcomeOf(v: Verification): Outcome {
    match v
    case VVerified => Succeeded
    case VFailed => NotSucceeded
    case _ => OutcomeAmbiguous
  }

  /** What the ledger column stores for an observed postcondition: ABSENT is recorded as UNKNOWN. */
  function StoredPost(p: Post): Post {
    if p.Absent? then Unknown else p
  }

  /** Authority gate re-evaluated immediately before a commit. */
  predicate CommitAllowed(current: Authority, decided: Authority) {
    && current.active
    && current.revocationEpoch == decided.revocationEpoch
    && current.killEpoch == decided.killEpoch
  }

  /** The SQL filter over effect_ledger used by the mutation-time re-check. */
  predicate BlockingRow(row: LedgerRow) {
    || row.status.Pending? || row.status.Committed?
    || (row.post.Some? && (row.post.value.Ambiguous? || row.post.value.Unknown? || row.post.value.Unverified?))
    || (row.outcome.Some? && row.outcome.value.OutcomeAmbiguous?)
  }

  function PendingRow(effectId: nat, capability: string): LedgerRow {
    LedgerRow(effectId, capability, Pending, None, None, None, None, None)
  }

  function CommittedRow(effectId: nat, capability: string, token: Token, epochs: (int, int)): LedgerRow {
    LedgerRow(effectId, capability, Committed, Some(token), Some(epochs), None, None, None)
  }

  /** UPDATE effect_ledger SET status = 'COMMITTED', commit_token, epochs. */
  function MarkCommitted(row: LedgerRow, token: Token, epochs: (int, int)): LedgerRow {
    row.(status := Committed, token := Some(token), epochs := Some(epochs))
  }

  /** UPDATE effect_ledger SET status = 'COMPLETED', postcondition_status, receipt_id, outcome. */
  function MarkCompleted(row: LedgerRow, p: Post, receiptId: nat): LedgerRow {
    row.(status := Completed, post := Some(StoredPost(p)), receipt := Some(receiptId),
         outcome := Some(OutcomeOf(MapPostcondition(p))))
  }

  /** A row whose effect is in the adapter, carrying exactly the adapter's token. */
  predicate Settled(adapter: map<Key, Token>, key: Key, row: LedgerRow) {
    && !row.status.Pending?
    && key in adapter
    && row.token == Some(adapter[key])
  }

  /** A COMPLETED row and the receipt it was completed with say the same thing. */
  predicate Agree(row: LedgerRow, receipt: Receipt) {
    && row.status.Completed?
    && row.receipt == Some(receipt.id)
    && row.token == receipt.token
    && row.post.Some? && MapPostcondition(row.post.value) == receipt.verification
    && row.outcome == Some(OutcomeOf(receipt.verification))
  }
}
