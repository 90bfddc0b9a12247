/**
 Materialised state records: the pure reconcile decision, its application to the stored row, and what
 any sequence of reconciliations can do to labels and values. Times are milliseconds; an observed_at that
 does not parse is None, so is a missing as_of; `source_status` is an input annotation and is never stored.
 */
module Reconciliation {
  import opened Wrappers
  import opened JsonText
  import opened CanonicalJson
  import E = Effects
  import T = TenantInterleaving

  datatype Freshness = Fresh | Aging | Stale | Offline | Conflicted | UnknownAge

  datatype Conflict = NoConflict | PendingLocalEffect | SourceConflict | UnknownConflict

  datatype Source = SOffline | SUnreachable | SUnknown | SStale | SOther(text: string)

  /** A row of current_state_records. */
  datatype Row = Row(
    key: string, subject: string, value: Json, system: string,
    asOf: Option<int>, observed: Option<int>, verified: Option<int>, maxAge: real,
    freshness: Freshness, conflict: Conflict, lastEvent: Option<string>, evidence: seq<string>)

  /** `localState`: a row shape, whether it carries a freshness label, and an optional source_status. */
  datatype Local = Local(row: Row, labelled: bool, source: Option<Source>)

  datatype Observation = Observation(
    value: Json, observed: Option<int>, asOf: Option<int>, maxAge: Option<real>, source: Option<Source>,
    system: Option<string>, evidence: Option<string>, event: Option<string>, incomplete: bool)

  datatype Evidence = Evidence(authoritative: bool, key: string, system: string, ref: string, value: Json)

  /** A local effect as the caller describes it or as loaded from the ledger. */
  datatype LocalEffect = LocalEffect(
    status: Option<E.LedgerStatus>, post: Option<E.Post>, outcome: Option<E.Outcome>, ambiguous: bool, pending: bool)

  datatype Action = Repair | Escalate | Hold | MarkStale | MarkUnknown | Noop

  datatype Decision = Decision(action: Action, overwritten: bool, next: Row)

  // ----- pure pieces -----

  predicate Mismatch(v: Json, w: Json) {
    Canonical(v) != Canonical(w)
  }

  predicate IsBlockingLocalEffect(e: Option<LocalEffect>) {
    e.Some? && var x := e.value;
      || (x.status.Some? && (x.status.value.Pending? || x.status.value.Committed?))
      || (x.post.Some? && (x.post.value.Ambiguous? || x.post.value.Unknown? || x.post.value.Unverified?))
      || (x.outcome.Some? && x.outcome.value.OutcomeAmbiguous?)
      || x.ambiguous || x.pending
  }

  predicate FailClosed(f: Freshness) {
    f.Offline? || f.Conflicted? || f.UnknownAge? || f.Stale?
  }

  predicate Clashes(c: Conflict) {
    c.PendingLocalEffect? || c.SourceConflict?
  }

  /** The label an observation has earned by its age alone. */
  function AgeLabel(observed: Option<int>, maxAge: Option<real>, now: int): Freshness {
    if observed.None? || maxAge.None? || maxAge.value < 0.0 then UnknownAge
    else
      var age := if now > observed.value then (now - observed.value) as real else 0.0;
      if age > 1000.0 * maxAge.value then Stale
      else if age > 500.0 * maxAge.value then Aging
      else Fresh
  }

  function ComputeFreshness(observed: Option<int>, maxAge: Option<real>, now: int, source: Option<Source>,
                            conflict: Conflict, force: Option<Freshness>): (f: Freshness)
    ensures force == None || FailClosed(force.value) || (f == force.value || FailClosed(f))
  {
    var computed :=
      if source.Some? && (source.value.SOffline? || source.value.SUnreachable?) then Offline
      else if Clashes(conflict) then Conflicted
      else if source == Some(SUnknown) then UnknownAge
      else if source == Some(SStale) then Stale
      else AgeLabel(observed, maxAge, now);
    if force.None? || (FailClosed(computed) && !FailClosed(force.value)) then computed else force.value
  }

  function InferFailClosed(l: Local): Option<Source> {
    if l.source.Some? && (l.source.value.SOffline? || l.source.value.SUnreachable?) then Some(SOffline)
    else if l.source.Some? && (l.source.value.SUnknown? || l.source.value.SStale?) then l.source
    else if l.labelled && l.row.freshness.Offline? then Some(SOffline)
    else if l.labelled && l.row.freshness.UnknownAge? then Some(SUnknown)
    else if l.labelled && l.row.freshness.Stale? then Some(SStale)
    else None
  }

  predicate DetectSourceConflict(a: Evidence, b: Evidence) {
    && a.authoritative && b.authoritative
    && a.key != "" && a.key == b.key
    && !(a.system != "" && b.system != "" && a.system == b.system && a.ref == b.ref)
    && Mismatch(a.value, b.value)
  }

  function Dedupe(s: seq<string>): seq<string> {
    if s == [] then [] else
      var rest := Dedupe(s[..|s| - 1]);
      if s[|s| - 1] in rest then rest else rest + [s[|s| - 1]]
  }

  function OwnEvidence(base: Row): Evidence {
    Evidence(true, base.key, base.system, if base.evidence == [] then "local" else base.evidence[0], base.value)
  }

  function Or<X>(a: Option<X>, b: X): X {
    if a.Some? then a.value else b
  }

  // ----- the decision -----

  /** A record whose value is null or that has no as_of is refused before anything is decided. */
  predicate Complete(r: Row) {
    !r.value.JNull? && r.asOf.Some?
  }

  function Base(l: Local, now: int): Row {
    if l.labelled then l.row
    else l.row.(freshness := ComputeFreshness(l.row.observed, Some(l.row.maxAge), now, l.source, l.row.conflict, None))
  }

  function Reconcile(l: Local, obs: Option<Observation>, effect: Option<LocalEffect>, evidence: Option<Evidence>,
                     now: int, escalate: bool): Option<Decision>
  {
    if !Complete(l.row) then None
    else
      var base := Base(l, now);
      if evidence.Some? && DetectSourceConflict(OwnEvidence(base), evidence.value) then
        Some(Decision(Hold, false, base.(freshness := Conflicted, conflict := SourceConflict, observed := Some(now))))
      else if IsBlockingLocalEffect(effect) then
        Some(Decision(Hold, false, base.(freshness := Conflicted, conflict := PendingLocalEffect, observed := Some(now))))
      else
        var source := if obs.Some? then obs.value.source else if InferFailClosed(l).Some? then InferFailClosed(l) else l.source;
        if source.Some? && (source.value.SOffline? || source.value.SUnreachable?) then
          Some(Decision(MarkUnknown, false, base.(freshness := Offline, conflict := NoConflict, observed := Some(now))))
        else if source == Some(SUnknown) then
          Some(Decision(MarkUnknown, false, base.(freshness := UnknownAge, conflict := Unresolved(base.conflict), observed := Some(now))))
        else if obs.None? then Some(WithoutProvider(base, source, now))
        else Some(WithProvider(base, obs.value, now, escalate))
  }

  function Unresolved(c: Conflict): Conflict {
    if c.NoConflict? then UnknownConflict else c
  }

  function WithoutProvider(base: Row, source: Option<Source>, now: int): Decision {
    if base.freshness.Conflicted? || Clashes(base.conflict) then
      Decision(Hold, false, base.(freshness := Conflicted, conflict := Unresolved(base.conflict), observed := Some(now)))
    else
      var f := ComputeFreshness(base.observed, Some(base.maxAge), now, source, base.conflict, None);
      if f.Stale? then Decision(MarkStale, false, base.(freshness := Stale, conflict := NoConflict))
      else if f.UnknownAge? then Decision(MarkUnknown, false, base.(freshness := UnknownAge, conflict := Unresolved(base.conflict)))
      else Decision(Noop, false, base.(freshness := f))
  }

  function ProviderMaxAge(base: Row, o: Observation): real {
    Or(o.maxAge, base.maxAge)
  }

  predicate Reliable(base: Row, o: Observation) {
    o.observed.Some? && ProviderMaxAge(base, o) >= 0.0
  }

  function ProviderLabel(base: Row, o: Observation, now: int): Freshness {
    ComputeFreshness(o.observed, Some(ProviderMaxAge(base, o)), now, o.source, NoConflict, None)
  }

  function AddEvidence(base: Row, o: Observation): seq<string> {
    if o.evidence.Some? then Dedupe(base.evidence + [o.evidence.value]) else base.evidence
  }

  function WithProvider(base: Row, o: Observation, now: int, escalate: bool): Decision {
    var mismatch := Mismatch(base.value, o.value);
    var found := ProviderLabel(base, o, now);
    if !Reliable(base, o) then
      Decision(if mismatch then Escalate else MarkUnknown, false, base.(freshness := UnknownAge, conflict := UnknownConflict))
    else if found.Stale? || o.source == Some(SStale) then
      Decision(MarkStale, false, base.(freshness := Stale, conflict := NoConflict, observed := o.observed))
    else if found.UnknownAge? || o.source == Some(SUnknown) then
      Decision(MarkUnknown, false, base.(freshness := UnknownAge, conflict := UnknownConflict, observed := o.observed))
    else
      var asOf := if o.asOf.Some? then o.asOf else o.observed;
      var seen := base.(freshness := found, conflict := NoConflict, observed := o.observed, asOf := asOf,
                        verified := Some(now), system := Or(o.system, base.system), evidence := AddEvidence(base, o));
      if !mismatch then Decision(Noop, false, seen)
      else if escalate || o.incomplete then
        Decision(Escalate, false, base.(freshness := UnknownAge, conflict := UnknownConflict, observed := o.observed))
      else
        Decision(Repair, true, seen.(value := o.value, freshness := if FailClosed(found) then Fresh else found,
                                     lastEvent := if o.event.Some? then o.event else base.lastEvent))
  }

  // ----- applying it -----

  datatype Applied = Stored | StopCondition | InvalidRecord

  /** `blocked` is what the ledger re-check under the scope lock finds. */
  function Apply(stored: Option<Row>, d: Decision, blocked: bool): (Option<Row>, Applied) {
    if d.action.Hold? && d.overwritten then (stored, StopCondition)
    else if stored.Some? && d.action.Hold? && Mismatch(stored.value.value, d.next.value) then (stored, StopCondition)
    else if (d.action.Repair? || d.overwritten) && blocked then (stored, StopCondition)
    else (Some(d.next), Stored)
  }

  type Ledger = seq<(E.Key, E.LedgerRow)>

  /** One call of reconcileState for a key: what it is given, the ledger its automatic load meets, and the
      ledger its re-check meets later, under the scope lock. */
  datatype Call = Call(
    local: Local, obs: Option<Observation>, effect: Option<LocalEffect>, autoLoad: bool, evidence: Option<Evidence>,
    now: int, escalate: bool, filter: T.Filter, loaded: Ledger, rechecked: Ledger)

  /** SELECT ... FROM effect_ledger WHERE blocking AND filter, newest first. */
  function LoadBlocking(ledger: Ledger, f: T.Filter): (r: Option<E.LedgerRow>)
    ensures r.Some? <==> exists i | 0 <= i < |ledger| :: T.Matches(f, ledger[i].0, ledger[i].1) && E.BlockingRow(ledger[i].1)
    ensures r.Some? ==> E.BlockingRow(r.value)
  {
    if ledger == [] then None
    else if T.Matches(f, ledger[0].0, ledger[0].1) && E.BlockingRow(ledger[0].1) then Some(ledger[0].1)
    else
      var r := LoadBlocking(ledger[1..], f);
      assert forall i | 0 < i < |ledger| :: ledger[i] == ledger[1..][i - 1];
      r
  }

  function EffectOf(row: E.LedgerRow): LocalEffect {
    LocalEffect(Some(row.status), row.post, row.outcome, false, false)
  }

  function EffectUsed(c: Call): Option<LocalEffect> {
    if c.effect.Some? || !c.autoLoad then c.effect
    else
      var r := LoadBlocking(c.loaded, c.filter);
      if r.None? then None else Some(EffectOf(r.value))
  }

  function Decide(c: Call): Option<Decision> {
    Reconcile(c.local, c.obs, EffectUsed(c), c.evidence, c.now, c.escalate)
  }

  function ReconcileState(stored: Option<Row>, c: Call): (Option<Row>, Applied) {
    var d := Decide(c);
    if d.None? then (stored, InvalidRecord)
    else Apply(stored, d.value, LoadBlocking(c.rechecked, c.filter).Some?)
  }

  class Records {
    var rows: map<string, Row>

    constructor ()
      ensures rows == map[]
    {
      rows := map[];
    }

    function Lookup(key: string): Option<Row>
      reads this
    {
      if key in rows then Some(rows[key]) else None
    }

    method ApplyReconciliation(key: string, d: Decision, filter: T.Filter, ledger: Ledger)
      returns (a: Applied)
      requires d.next.key == key
      modifies this
      ensures (Lookup(key), a) == Apply(old(Lookup(key)), d, LoadBlocking(ledger, filter).Some?)
      ensures forall k | k != key :: Lookup(k) == old(Lookup(k))
    {
      if d.action.Hold? && d.overwritten {
        return StopCondition;
      }
      if key in rows && d.action.Hold? && Mismatch(rows[key].value, d.next.value) {
        return StopCondition;
      }
      if d.action.Repair? || d.overwritten {
        var blocking := LoadBlocking(ledger, filter);
        if blocking.Some? {
          return StopCondition;
        }
      }
      rows := rows[key := d.next];
      a := Stored;
    }

    method ReconcileStateFor(c: Call) returns (a: Applied, d: Option<Decision>)
      modifies this
      ensures (Lookup(c.local.row.key), a) == ReconcileState(old(Lookup(c.local.row.key)), c) && d == Decide(c)
      ensures forall k | k != c.local.row.key :: Lookup(k) == old(Lookup(k))
    {
      d := Decide(c);
      if d.None? {
        return InvalidRecord, d;
      }
      DecisionKeepsKey(c);
      a := ApplyReconciliation(c.local.row.key, d.value, c.filter, c.rechecked);
    }
  }

  lemma DecisionKeepsKey(c: Call)
    requires Decide(c).Some?
    ensures Decide(c).value.next.key == c.local.row.key
  {
  }

  // ----- labels -----

  /** A no-provider reconcile step on the stored row. */
  datatype Quiet = Quiet(effect: Option<LocalEffect>, evidence: Option<Evidence>, now: int, escalate: bool)

  /** The row after a sequence of reconciliations without provider evidence, each reading the stored row
      back without its source_status; a refused call changes nothing. */
  function QuietRun(r: Row, qs: seq<Quiet>): Row
    decreases |qs|
  {
    if qs == [] then r
    else
      var before := QuietRun(r, qs[..|qs| - 1]);
      var q := qs[|qs| - 1];
      var d := Reconcile(Local(before, true, None), None, q.effect, q.evidence, q.now, q.escalate);
      if d.None? then before else d.value.next
  }

  /** A fail-closed label never turns FRESH or AGING without provider evidence, whatever the clock,
      local effects and conflicting evidence; nor does the value change. */
  lemma {:induction false} FailClosedStays(r: Row, qs: seq<Quiet>)
    requires FailClosed(r.freshness)
    ensures FailClosed(QuietRun(r, qs).freshness) && QuietRun(r, qs).value == r.value
    decreases |qs|
  {
    if qs != [] {
      FailClosedStays(r, qs[..|qs| - 1]);
    }
  }

  function Rank(f: Freshness): nat {
    if f.Fresh? then 0 else if f.Aging? then 1 else 2
  }

  lemma AgeLabelOnlyRises(observed: Option<int>, maxAge: real, t: int, u: int)
    requires t <= u
    ensures Rank(AgeLabel(observed, Some(maxAge), t)) <= Rank(AgeLabel(observed, Some(maxAge), u))
  {
  }

  /** The label the row carries is the one its own age data give at `t`. */
  predicate Earned(r: Row, t: int) {
    r.freshness == AgeLabel(r.observed, Some(r.maxAge), t)
  }

  predicate ClockRises(qs: seq<Quiet>, t: int) {
    && (forall i | 0 <= i < |qs| :: t <= qs[i].now)
    && (forall i, j | 0 <= i < j < |qs| :: qs[i].now <= qs[j].now)
  }

  function LastTime(qs: seq<Quiet>, t: int): int {
    if qs == [] then t else qs[|qs| - 1].now
  }

  lemma QuietStep(r: Row, q: Quiet, t: int)
    requires t <= q.now && (FailClosed(r.freshness) || Earned(r, t))
    ensures var d := Reconcile(Local(r, true, None), None, q.effect, q.evidence, q.now, q.escalate);
      var r' := if d.None? then r else d.value.next;
      (FailClosed(r'.freshness) || Earned(r', q.now) || (d.None? && Earned(r', t))) && Rank(r.freshness) <= Rank(r'.freshness)
  {
    AgeLabelOnlyRises(r.observed, r.maxAge, t, q.now);
  }

  lemma {:induction false} QuietRunEarned(r: Row, qs: seq<Quiet>, t: int)
    requires ClockRises(qs, t) && (FailClosed(r.freshness) || Earned(r, t)) && Complete(r)
    ensures var r' := QuietRun(r, qs); (FailClosed(r'.freshness) || Earned(r', LastTime(qs, t))) && Complete(r')
    decreases |qs|
  {
    if qs != [] {
      var init := qs[..|qs| - 1];
      QuietRunEarned(r, init, t);
      QuietStep(QuietRun(r, init), qs[|qs| - 1], LastTime(init, t));
    }
  }

  /** From a computed label, with a clock that never goes back, the label only moves from FRESH to AGING
      to the fail-closed ones, at every point of every evidence-free run. */
  lemma {:induction false} AgeLabelNeverGoesBack(r: Row, qs: seq<Quiet>, t: int, i: nat)
    requires ClockRises(qs, t) && Earned(r, t) && Complete(r) && i <= |qs|
    ensures Rank(QuietRun(r, qs[..i]).freshness) <= Rank(QuietRun(r, qs).freshness)
    decreases |qs|
  {
    if i == |qs| {
      assert qs[..i] == qs;
    } else {
      var init := qs[..|qs| - 1];
      AgeLabelNeverGoesBack(r, init, t, i);
      assert init[..i] == qs[..i];
      QuietRunEarned(r, init, t);
      QuietStep(QuietRun(r, init), qs[|qs| - 1], LastTime(init, t));
    }
  }

  /** A provider observation is labelled with its own max_age_seconds while the row keeps the old one. So
      a later evidence-free reconcile can lower the label again exactly when the row's own age data
      would have given the observation a lower label in the first place. */
  lemma RejuvenatedExactlyWhen(l: Local, o: Observation, effect: Option<LocalEffect>, evidence: Option<Evidence>, now: int, escalate: bool)
    requires var d := Reconcile(l, Some(o), effect, evidence, now, escalate);
      d.Some? && !FailClosed(d.value.next.freshness) && !d.value.next.value.JNull?
    ensures var r := Reconcile(l, Some(o), effect, evidence, now, escalate).value.next;
      (exists later: int :: later >= now && Rank(QuietRun(r, [Quiet(None, None, later, false)]).freshness) < Rank(r.freshness))
      <==> Rank(AgeLabel(o.observed, Some(l.row.maxAge), now)) < Rank(AgeLabel(o.observed, Some(ProviderMaxAge(l.row, o)), now))
  {
    var r := Reconcile(l, Some(o), effect, evidence, now, escalate).value.next;
    LabelledByProvider(l, o, effect, evidence, now, escalate);
    forall later: int | later >= now
      ensures QuietRun(r, [Quiet(None, None, later, false)]).freshness == AgeLabel(o.observed, Some(l.row.maxAge), later)
      ensures Rank(AgeLabel(o.observed, Some(l.row.maxAge), now)) <= Rank(AgeLabel(o.observed, Some(l.row.maxAge), later))
    {
      QuietOnce(r, later);
      AgeLabelOnlyRises(o.observed, l.row.maxAge, now, later);
    }
    if Rank(AgeLabel(o.observed, Some(l.row.maxAge), now)) < Rank(r.freshness) {
      assert Rank(QuietRun(r, [Quiet(None, None, now, false)]).freshness) < Rank(r.freshness);
    }
  }

  lemma LabelledByProvider(l: Local, o: Observation, effect: Option<LocalEffect>, evidence: Option<Evidence>, now: int, escalate: bool)
    requires var d := Reconcile(l, Some(o), effect, evidence, now, escalate); d.Some? && !FailClosed(d.value.next.freshness)
    ensures var r := Reconcile(l, Some(o), effect, evidence, now, escalate).value.next;
      && r.freshness == AgeLabel(o.observed, Some(ProviderMaxAge(l.row, o)), now)
      && r.observed == o.observed && r.maxAge == l.row.maxAge && r.conflict.NoConflict? && r.asOf.Some?
  {
  }

  lemma QuietOnce(r: Row, now: int)
    requires Complete(r) && !FailClosed(r.freshness) && r.conflict.NoConflict?
    ensures QuietRun(r, [Quiet(None, None, now, false)]).freshness == AgeLabel(r.observed, Some(r.maxAge), now)
  {
    var qs := [Quiet(None, None, now, false)];
    assert qs[..0] == [];
    assert QuietRun(r, qs[..0]) == r;
  }

  /** For instance AGING by the provider's 10 seconds is FRESH again by the row's 1000. */
  lemma AgingTurnsFreshAgain()
    ensures exists l: Local, o: Observation, now: int ::
      var d := Reconcile(l, Some(o), None, None, now, false);
      && d.Some? && d.value.next.freshness.Aging?
      && QuietRun(d.value.next, [Quiet(None, None, now, false)]).freshness.Fresh?
  {
    var base := Row("k", "s", JBool(true), "sys", Some(0), Some(0), None, 1000.0, Fresh, NoConflict, None, []);
    var o := Observation(JBool(true), Some(0), None, Some(10.0), None, None, None, None, false);
    var d := Reconcile(Local(base, true, None), Some(o), None, None, 8000, false);
    assert d.Some? && d.value.next.freshness.Aging?;
    QuietOnce(d.value.next, 8000);
  }

  // ----- which decision, and when -----

  /** Authoritative evidence for the row's key, from another source or reference, with another value. */
  predicate EvidenceConflicts(r: Row, evidence: Option<Evidence>) {
    && evidence.Some? && evidence.value.authoritative && evidence.value.key == r.key != ""
    && Canonical(evidence.value.value) != Canonical(r.value)
    && (evidence.value.system != r.system || r.system == ""
        || evidence.value.ref != if r.evidence == [] then "local" else r.evidence[0])
  }

  /** The effect is not known to be settled. */
  predicate EffectUnsettled(effect: Option<LocalEffect>) {
    effect.Some? &&
    (effect.value.status == Some(E.Pending) || effect.value.status == Some(E.Committed)
     || effect.value.post == Some(E.Ambiguous) || effect.value.post == Some(E.Unknown) || effect.value.post == Some(E.Unverified)
     || effect.value.outcome == Some(E.OutcomeAmbiguous) || effect.value.ambiguous || effect.value.pending)
  }

  predicate Unavailable(source: Option<Source>) {
    source == Some(SOffline) || source == Some(SUnreachable)
  }

  /** Nothing is annotated, and the row carries the label. */
  predicate LabelSays(l: Local, f: Freshness) {
    l.labelled && l.row.freshness == f && !Unavailable(l.source) && l.source != Some(SUnknown) && l.source != Some(SStale)
  }

  /** The source is offline, unknown or stale: the observation says so, or without one the caller's annotation,
      or without that the label the row carries. */
  predicate SourceOffline(l: Local, obs: Option<Observation>) {
    if obs.Some? then Unavailable(obs.value.source) else Unavailable(l.source) || LabelSays(l, Offline)
  }

  predicate SourceUnknown(l: Local, obs: Option<Observation>) {
    if obs.Some? then obs.value.source == Some(SUnknown) else l.source == Some(SUnknown) || LabelSays(l, UnknownAge)
  }

  predicate SourceStale(l: Local, obs: Option<Observation>) {
    if obs.Some? then obs.value.source == Some(SStale) else l.source == Some(SStale) || LabelSays(l, Stale)
  }

  /** Age data an age can be told from. */
  predicate Dated(observed: Option<int>, maxAge: real) {
    observed.Some? && maxAge >= 0.0
  }

  /** The age in milliseconds; an observation from the future is new. */
  function Age(observed: int, now: int): int {
    if now > observed then now - observed else 0
  }

  /** UNKNOWN without usable age data, STALE beyond the maximum age, AGING beyond half of it, FRESH up to there. */
  lemma AgeMeans(observed: Option<int>, maxAge: real, now: int)
    ensures var f := AgeLabel(observed, Some(maxAge), now);
      && (f.UnknownAge? <==> !Dated(observed, maxAge))
      && (f.Stale? <==> Dated(observed, maxAge) && Age(observed.value, now) as real > 1000.0 * maxAge)
      && (f.Aging? <==> Dated(observed, maxAge) && 500.0 * maxAge < Age(observed.value, now) as real <= 1000.0 * maxAge)
      && (f.Fresh? <==> Dated(observed, maxAge) && Age(observed.value, now) as real <= 500.0 * maxAge)
  {
  }

  /** A computed label: OFFLINE for an unavailable source, else CONFLICTED for a clash, else by what the source says,
      else by age; a forced label stands unless it would take back a fail-closed one. */
  lemma LabelMeans(observed: Option<int>, maxAge: Option<real>, now: int, source: Option<Source>, conflict: Conflict, force: Option<Freshness>)
    ensures var f := ComputeFreshness(observed, maxAge, now, source, conflict, None);
      var forced := ComputeFreshness(observed, maxAge, now, source, conflict, force);
      && (f.Offline? <==> Unavailable(source))
      && (f.Conflicted? <==> !Unavailable(source) && (conflict.PendingLocalEffect? || conflict.SourceConflict?))
      && (!f.Offline? && !f.Conflicted? ==>
            f == if source == Some(SUnknown) then UnknownAge else if source == Some(SStale) then Stale else AgeLabel(observed, maxAge, now))
      && (force.Some? ==> (forced == force.value
            <==> f == force.value || force.value in {Offline, Conflicted, UnknownAge, Stale} || f.Fresh? || f.Aging?))
      && (force.Some? && forced != force.value ==> forced == f)
  {
  }

  /** A call decides exactly on a complete record. It HOLDs as SOURCE_CONFLICT when the evidence conflicts with the
      row, else as PENDING_LOCAL_EFFECT when the effect is unsettled, else, with no observation from an
      available and known source, when the row is already in conflict, which it then keeps. */
  lemma HoldExactlyWhen(l: Local, obs: Option<Observation>, effect: Option<LocalEffect>, evidence: Option<Evidence>, now: int, escalate: bool)
    ensures var d := Reconcile(l, obs, effect, evidence, now, escalate);
      var disputed := obs.None? && !SourceOffline(l, obs) && !SourceUnknown(l, obs)
                      && ((l.labelled && l.row.freshness.Conflicted?) || Clashes(l.row.conflict));
      && (d.Some? <==> !l.row.value.JNull? && l.row.asOf.Some?)
      && (d.Some? ==> (d.value.action.Hold? <==> EvidenceConflicts(l.row, evidence) || EffectUnsettled(effect) || disputed))
      && (d.Some? && d.value.action.Hold? ==>
            && d.value.next.freshness.Conflicted? && d.value.next.observed == Some(now) && d.value.next.value == l.row.value
            && d.value.next.conflict == if EvidenceConflicts(l.row, evidence) then SourceConflict
                                        else if EffectUnsettled(effect) then PendingLocalEffect
                                        else if l.row.conflict.NoConflict? then UnknownConflict else l.row.conflict)
  {
  }

  /** What stops before any age is looked at. */
  predicate Held(l: Local, effect: Option<LocalEffect>, evidence: Option<Evidence>) {
    !Complete(l.row) || EvidenceConflicts(l.row, evidence) || EffectUnsettled(effect)
  }

  lemma NotHeld(l: Local, obs: Option<Observation>, effect: Option<LocalEffect>, evidence: Option<Evidence>, now: int, escalate: bool)
    requires !Held(l, effect, evidence)
    ensures !(evidence.Some? && DetectSourceConflict(OwnEvidence(Base(l, now)), evidence.value)) && !IsBlockingLocalEffect(effect)
  {
  }

  /** OFFLINE exactly when the source is unavailable and nothing holds; then also the conflict is cleared. */
  lemma OfflineExactlyWhen(l: Local, obs: Option<Observation>, effect: Option<LocalEffect>, evidence: Option<Evidence>, now: int, escalate: bool)
    requires Reconcile(l, obs, effect, evidence, now, escalate).Some?
    ensures var d := Reconcile(l, obs, effect, evidence, now, escalate).value;
      && (d.next.freshness.Offline? <==> !Held(l, effect, evidence) && SourceOffline(l, obs))
      && (d.next.freshness.Offline? ==> d.action.MarkUnknown? && d.next.conflict.NoConflict? && d.next.observed == Some(now))
  {
    if !Held(l, effect, evidence) { NotHeld(l, obs, effect, evidence, now, escalate); }
  }

  /** With an observation from an available, known source that nothing holds: the whole decision, by age, value
      and the two escalation flags. */
  lemma ProviderDecides(l: Local, o: Observation, effect: Option<LocalEffect>, evidence: Option<Evidence>, now: int, escalate: bool)
    requires !Held(l, effect, evidence) && !SourceOffline(l, Some(o)) && !SourceUnknown(l, Some(o))
    ensures var d := Reconcile(l, Some(o), effect, evidence, now, escalate).value;
      var maxAge := if o.maxAge.Some? then o.maxAge.value else l.row.maxAge;
      var dated := Dated(o.observed, maxAge);
      var expired := SourceStale(l, Some(o)) || (dated && Age(o.observed.value, now) as real > 1000.0 * maxAge);
      var differs := Canonical(l.row.value) != Canonical(o.value);
      && (d.action.Repair? <==> dated && !expired && differs && !escalate && !o.incomplete)
      && (d.action.Escalate? <==> differs && (!dated || (!expired && (escalate || o.incomplete))))
      && (d.action.MarkUnknown? <==> !dated && !differs)
      && (d.action.MarkStale? <==> dated && expired)
      && (d.action.Noop? <==> dated && !expired && !differs)
      && (d.action.Repair? || d.action.Noop? ==>
            d.next.freshness == AgeLabel(o.observed, Some(maxAge), now) && d.next.conflict.NoConflict? && !FailClosed(d.next.freshness))
      && (d.action.MarkStale? ==> d.next.freshness.Stale? && d.next.conflict.NoConflict? && d.next.observed == o.observed)
      && (d.action.Escalate? || d.action.MarkUnknown? ==>
            d.next.freshness.UnknownAge? && d.next.conflict.UnknownConflict? && d.next.observed == if dated then o.observed else l.row.observed)
      && (d.action.Repair? ==> d.next.value == o.value && d.next.lastEvent == if o.event.Some? then o.event else l.row.lastEvent)
  {
    NotHeld(l, Some(o), effect, evidence, now, escalate);
    AgeMeans(o.observed, ProviderMaxAge(l.row, o), now);
  }

  /** Without an observation, not held, not disputed and with an available, known source: the row's own age data
      decide, and nothing but label and conflict changes. */
  lemma OwnAgeDecides(l: Local, effect: Option<LocalEffect>, evidence: Option<Evidence>, now: int, escalate: bool)
    requires !Held(l, effect, evidence) && !SourceOffline(l, None) && !SourceUnknown(l, None)
    requires !(l.labelled && l.row.freshness.Conflicted?) && !Clashes(l.row.conflict)
    ensures var d := Reconcile(l, None, effect, evidence, now, escalate).value;
      var own := AgeLabel(l.row.observed, Some(l.row.maxAge), now);
      && (d.action.MarkStale? <==> SourceStale(l, None) || own.Stale?)
      && (d.action.MarkUnknown? <==> !SourceStale(l, None) && own.UnknownAge?)
      && (d.action.Noop? <==> !SourceStale(l, None) && (own.Fresh? || own.Aging?))
      && d.next.freshness == (if SourceStale(l, None) then Stale else own)
      && d.next.conflict == (if d.action.MarkStale? then NoConflict
                             else if d.action.MarkUnknown? && l.row.conflict.NoConflict? then UnknownConflict else l.row.conflict)
      && d.next.(freshness := l.row.freshness, conflict := l.row.conflict) == l.row
  {
    NotHeld(l, None, effect, evidence, now, escalate);
  }

  /** An unknown source makes the label UNKNOWN, if nothing holds and it is not unavailable. */
  lemma UnknownSourceDecides(l: Local, obs: Option<Observation>, effect: Option<LocalEffect>, evidence: Option<Evidence>, now: int, escalate: bool)
    requires !Held(l, effect, evidence) && !SourceOffline(l, obs) && SourceUnknown(l, obs)
    ensures var d := Reconcile(l, obs, effect, evidence, now, escalate).value;
      && d.action.MarkUnknown? && d.next.freshness.UnknownAge? && d.next.observed == Some(now)
      && d.next.conflict == if l.row.conflict.NoConflict? then UnknownConflict else l.row.conflict
  {
    NotHeld(l, obs, effect, evidence, now, escalate);
  }

  /** With the automatic load and no effect passed, a call on a complete record without conflicting evidence HOLDs
      as PENDING_LOCAL_EFFECT, its value unchanged, exactly when the loaded ledger has a row its filter selects
      that blocks. */
  lemma LoadedEffectsHold(c: Call)
    requires c.autoLoad && c.effect.None? && Complete(c.local.row) && !EvidenceConflicts(c.local.row, c.evidence)
    ensures Decide(c).Some?
    ensures (exists i | 0 <= i < |c.loaded| :: T.Matches(c.filter, c.loaded[i].0, c.loaded[i].1) && E.BlockingRow(c.loaded[i].1)) ==>
      && Decide(c).value.action.Hold? && Decide(c).value.next.conflict.PendingLocalEffect? && Decide(c).value.next.freshness.Conflicted?
      && Decide(c).value.next.value == c.local.row.value
    ensures !(exists i | 0 <= i < |c.loaded| :: T.Matches(c.filter, c.loaded[i].0, c.loaded[i].1) && E.BlockingRow(c.loaded[i].1)) ==>
      EffectUsed(c).None?
  {
    HoldExactlyWhen(c.local, c.obs, EffectUsed(c), c.evidence, c.now, c.escalate);
  }

  /** An effect that is passed, or no automatic load: the ledger is not asked. */
  lemma PassedEffectsCount(c: Call)
    requires (c.effect.Some? || !c.autoLoad) && Complete(c.local.row) && !EvidenceConflicts(c.local.row, c.evidence)
    ensures Decide(c).Some?
    ensures EffectUnsettled(c.effect) ==> Decide(c).value.action.Hold? && Decide(c).value.next.conflict.PendingLocalEffect?
    ensures !EffectUnsettled(c.effect) && c.obs.Some? ==> !Decide(c).value.action.Hold?
    ensures EffectUsed(c) == c.effect
  {
    HoldExactlyWhen(c.local, c.obs, EffectUsed(c), c.evidence, c.now, c.escalate);
  }

  // ----- provenance -----

  lemma {:induction false} DedupeFacts(s: seq<string>)
    ensures forall x :: x in Dedupe(s) <==> x in s
    ensures forall i, j | 0 <= i < j < |Dedupe(s)| :: Dedupe(s)[i] != Dedupe(s)[j]
    decreases |s|
  {
    if s != [] {
      DedupeFacts(s[..|s| - 1]);
      assert forall x :: x in s <==> x in s[..|s| - 1] || x == s[|s| - 1];
    }
  }

  predicate SameProvenance(base: Row, r: Row) {
    r.asOf == base.asOf && r.verified == base.verified && r.system == base.system && r.evidence == base.evidence && r.lastEvent == base.lastEvent
  }

  /** Times, source and evidence are the observation's; no earlier evidence is lost. */
  ghost predicate FromObservation(base: Row, o: Observation, now: int, r: Row) {
    && r.observed == o.observed && r.asOf == (if o.asOf.Some? then o.asOf else o.observed)
    && r.verified == Some(now) && r.system == Or(o.system, base.system)
    && forall x :: x in r.evidence <==> x in base.evidence || o.evidence == Some(x)
  }

  lemma ProviderProvenance(base: Row, o: Observation, now: int, escalate: bool)
    requires o.source.None? || (!o.source.value.SOffline? && !o.source.value.SUnreachable?)
    ensures var r := WithProvider(base, o, now, escalate).next;
      if !FailClosed(r.freshness) then FromObservation(base, o, now, r) else SameProvenance(base, r)
  {
    if o.evidence.Some? { DedupeFacts(base.evidence + [o.evidence.value]); }
  }

  /** Where a record came from changes only together with an observation accepted as FRESH or AGING, and
      then the row counts as verified now; otherwise it stays as it was. Identity and max_age_seconds
      always do. */
  lemma ProvenanceMovesWithTheObservation(l: Local, obs: Option<Observation>, effect: Option<LocalEffect>, evidence: Option<Evidence>, now: int, escalate: bool)
    requires Reconcile(l, obs, effect, evidence, now, escalate).Some?
    ensures var r := Reconcile(l, obs, effect, evidence, now, escalate).value.next;
      && r.key == l.row.key && r.subject == l.row.subject && r.maxAge == l.row.maxAge
      && (if obs.Some? && !FailClosed(r.freshness) then FromObservation(l.row, obs.value, now, r) else SameProvenance(l.row, r))
  {
    if obs.Some? && (obs.value.source.None? || (!obs.value.source.value.SOffline? && !obs.value.source.value.SUnreachable?)) {
      ProviderProvenance(Base(l, now), obs.value, now, escalate);
    }
  }

  // ----- values -----

  /** The caller passes the stored row itself. */
  predicate Faithful(stored: Row, c: Call) {
    c.local.row == stored
  }

  /** Why a REPAIR was allowed to overwrite the stored value with the provider's. */
  predicate Justified(stored: Row, c: Call, after: Row) {
    && c.obs.Some? && after.value == c.obs.value.value
    && Reliable(stored, c.obs.value)
    && !FailClosed(ProviderLabel(stored, c.obs.value, c.now)) && after.freshness == ProviderLabel(stored, c.obs.value, c.now)
    && !IsBlockingLocalEffect(EffectUsed(c))
    && LoadBlocking(c.rechecked, c.filter).None?
    && !c.escalate && !c.obs.value.incomplete
  }

  lemma RepairIsJustified(l: Local, o: Observation, effect: Option<LocalEffect>, evidence: Option<Evidence>, now: int, escalate: bool)
    requires var d := Reconcile(l, Some(o), effect, evidence, now, escalate); d.Some? && d.value.action.Repair?
    ensures var d := Reconcile(l, Some(o), effect, evidence, now, escalate).value;
      && d.next.value == o.value && Mismatch(l.row.value, o.value)
      && Reliable(l.row, o) && !FailClosed(ProviderLabel(l.row, o, now)) && d.next.freshness == ProviderLabel(l.row, o, now)
      && !IsBlockingLocalEffect(effect) && !escalate && !o.incomplete
  {
  }

  /** Only REPAIR changes the value a decision carries, and only REPAIR is flagged as overwriting. */
  lemma OnlyRepairOverwrites(l: Local, obs: Option<Observation>, effect: Option<LocalEffect>, evidence: Option<Evidence>, now: int, escalate: bool)
    requires Reconcile(l, obs, effect, evidence, now, escalate).Some?
    ensures var d := Reconcile(l, obs, effect, evidence, now, escalate).value;
      && (d.overwritten <==> d.action.Repair?)
      && (!d.action.Repair? ==> d.next.value == l.row.value)
      && (d.action.Repair? ==> obs.Some?)
  {
  }

  /** On a faithful call the stored value changes exactly when a REPAIR is applied, and then it becomes
      the provider's value under every safeguard. */
  lemma ValueChangesOnlyByRepair(stored: Row, c: Call)
    requires Faithful(stored, c)
    ensures var (after, a) := ReconcileState(Some(stored), c);
      && after.Some?
      && (Mismatch(after.value.value, stored.value) <==> a.Stored? && Decide(c).value.action.Repair?)
      && (after.value.value != stored.value ==> a.Stored? && Decide(c).value.action.Repair? && Justified(stored, c, after.value))
  {
    if Decide(c).Some? {
      OnlyRepairOverwrites(c.local, c.obs, EffectUsed(c), c.evidence, c.now, c.escalate);
      if Decide(c).value.action.Repair? {
        RepairIsJustified(c.local, c.obs.value, EffectUsed(c), c.evidence, c.now, c.escalate);
      }
    }
  }

  /** Every call of a run is faithful to the row stored when it is made. */
  predicate FaithfulRun(stored: Row, cs: seq<Call>)
    decreases |cs|
  {
    cs == [] || (Faithful(stored, cs[0]) && FaithfulRun(After(stored, cs[0]), cs[1..]))
  }

  function After(stored: Row, c: Call): Row {
    var r := ReconcileState(Some(stored), c).0;
    if r.Some? then r.value else stored
  }

  function RunAll(stored: Row, cs: seq<Call>): Row
    decreases |cs|
  {
    if cs == [] then stored else RunAll(After(stored, cs[0]), cs[1..])
  }

  /** Over any faithful run, if the final value is not the initial one then it is the provider's value of
      some call of the run whose REPAIR was justified in the row it met, and no later call changed it. */
  lemma {:induction false} ValueComesFromARepair(stored: Row, cs: seq<Call>) returns (i: nat, met: Row)
    requires FaithfulRun(stored, cs) && RunAll(stored, cs).value != stored.value
    ensures i < |cs| && met == RunAll(stored, cs[..i])
    ensures ReconcileState(Some(met), cs[i]).1.Stored? && Decide(cs[i]).Some? && Decide(cs[i]).value.action.Repair?
    ensures Justified(met, cs[i], After(met, cs[i])) && RunAll(stored, cs).value == cs[i].obs.value.value
    decreases |cs|
  {
    var next := After(stored, cs[0]);
    ValueChangesOnlyByRepair(stored, cs[0]);
    if RunAll(next, cs[1..]).value != next.value {
      i, met := ValueComesFromARepair(next, cs[1..]);
      i := i + 1;
      assert cs[..i][1..] == cs[1..][..i - 1];
    } else {
      i, met := 0, stored;
      assert cs[..0] == [];
    }
  }

  /** A call that is not faithful and neither REPAIRs nor HOLDs writes the caller's value back: it changes
      the stored value exactly when the caller's value differs from it. */
  lemma UnfaithfulWriteBack(stored: Row, c: Call)
    requires Decide(c).Some? && !Decide(c).value.action.Repair? && !Decide(c).value.action.Hold?
    ensures ReconcileState(Some(stored), c).1.Stored?
    ensures ReconcileState(Some(stored), c).0.value.value == c.local.row.value
  {
    OnlyRepairOverwrites(c.local, c.obs, EffectUsed(c), c.evidence, c.now, c.escalate);
  }

  /** A HOLD never changes the stored value, faithful caller or not. */
  lemma HoldKeepsTheValue(stored: Row, c: Call)
    requires Decide(c).Some? && Decide(c).value.action.Hold?
    ensures var (after, a) := ReconcileState(Some(stored), c);
      after.Some? && !Mismatch(after.value.value, stored.value)
      && (a.StopCondition? <==> Mismatch(stored.value, c.local.row.value))
  {
    OnlyRepairOverwrites(c.local, c.obs, EffectUsed(c), c.evidence, c.now, c.escalate);
  }

  /** The SQL filter and isBlockingLocalEffect agree on every ledger row, so the automatic load holds a
      decision back exactly when some matching row is blocking in the caller's sense. */
  lemma SqlFilterAgrees(ledger: Ledger, f: T.Filter)
    ensures LoadBlocking(ledger, f).Some? <==>
      exists i | 0 <= i < |ledger| :: T.Matches(f, ledger[i].0, ledger[i].1) && IsBlockingLocalEffect(Some(EffectOf(ledger[i].1)))
  {
    forall i | 0 <= i < |ledger|
      ensures E.BlockingRow(ledger[i].1) <==> IsBlockingLocalEffect(Some(EffectOf(ledger[i].1)))
    {
    }
  }

  /** The value a REPAIR replaces differs from the provider's as a JSON value, not just as text. */
  lemma RepairSeesARealDifference(stored: Row, c: Call)
    requires Faithful(stored, c) && Decide(c).Some? && Decide(c).value.action.Repair?
    requires Valid(stored.value) && Valid(c.obs.value.value)
    ensures !Same(stored.value, c.obs.value.value)
  {
    RepairIsJustified(c.local, c.obs.value, EffectUsed(c), c.evidence, c.now, c.escalate);
    CanonicalDecides(stored.value, c.obs.value.value);
  }

  /** The re-check stops a faithful call exactly when it would REPAIR and a blocking row its filter selects
      has appeared by then; with the automatic load that row was not there when the call decided. */
  lemma RecheckStopsExactlyWhen(stored: Row, c: Call)
    requires Faithful(stored, c) && Decide(c).Some?
    ensures ReconcileState(Some(stored), c).1.StopCondition? <==>
      Decide(c).value.action.Repair? && LoadBlocking(c.rechecked, c.filter).Some?
    ensures ReconcileState(Some(stored), c).1.StopCondition? && c.autoLoad && c.effect.None? ==> LoadBlocking(c.loaded, c.filter).None?
  {
    OnlyRepairOverwrites(c.local, c.obs, EffectUsed(c), c.evidence, c.now, c.escalate);
    if Decide(c).value.action.Repair? {
      RepairIsJustified(c.local, c.obs.value, EffectUsed(c), c.evidence, c.now, c.escalate);
    }
  }

  // ----- records that can no longer be reconciled -----

  /** The call stored a REPAIR to a provider's JSON null. */
  predicate StoresNull(stored: Row, c: Call) {
    && ReconcileState(Some(stored), c).1.Stored? && Decide(c).value.action.Repair?
    && c.obs.Some? && c.obs.value.value.JNull?
  }

  lemma StoredRowComplete(stored: Row, c: Call)
    requires Faithful(stored, c) && ReconcileState(Some(stored), c).1.Stored?
    ensures Complete(After(stored, c)) <==> !StoresNull(stored, c)
  {
    OnlyRepairOverwrites(c.local, c.obs, EffectUsed(c), c.evidence, c.now, c.escalate);
    ProvenanceMovesWithTheObservation(c.local, c.obs, EffectUsed(c), c.evidence, c.now, c.escalate);
    if Decide(c).value.action.Repair? {
      RepairIsJustified(c.local, c.obs.value, EffectUsed(c), c.evidence, c.now, c.escalate);
    }
  }

  /** After a stored faithful call the next faithful call is refused exactly when that call repaired the
      row to a provider's JSON null. */
  lemma NullRepairWedgesTheRecord(stored: Row, c: Call, d: Call)
    requires Faithful(stored, c) && ReconcileState(Some(stored), c).1.Stored? && Faithful(After(stored, c), d)
    ensures ReconcileState(Some(After(stored, c)), d).1.InvalidRecord?
      <==> Decide(c).value.action.Repair? && c.obs.Some? && c.obs.value.value.JNull?
  {
    StoredRowComplete(stored, c);
  }

  lemma StepCompleteness(stored: Row, c: Call)
    requires Faithful(stored, c) && Complete(stored)
    ensures Complete(After(stored, c)) <==> !StoresNull(stored, c)
  {
    if ReconcileState(Some(stored), c).1.Stored? { StoredRowComplete(stored, c); }
  }

  lemma {:induction false} WedgedStays(stored: Row, cs: seq<Call>)
    requires FaithfulRun(stored, cs) && !Complete(stored)
    ensures RunAll(stored, cs) == stored
    decreases |cs|
  {
    if cs != [] { WedgedStays(stored, cs[1..]); }
  }

  ghost predicate NullStoredIn(stored: Row, cs: seq<Call>)
    decreases |cs|
  {
    cs != [] && (StoresNull(stored, cs[0]) || NullStoredIn(After(stored, cs[0]), cs[1..]))
  }

  /** A faithful run from a complete record ends with one that every later call refuses exactly when some
      call of the run stored a REPAIR to JSON null. */
  lemma {:induction false} WedgedExactlyWhen(stored: Row, cs: seq<Call>)
    requires FaithfulRun(stored, cs) && Complete(stored)
    ensures !Complete(RunAll(stored, cs)) <==> NullStoredIn(stored, cs)
    decreases |cs|
  {
    if cs != [] {
      StepCompleteness(stored, cs[0]);
      if StoresNull(stored, cs[0]) {
        WedgedStays(After(stored, cs[0]), cs[1..]);
      } else {
        WedgedExactlyWhen(After(stored, cs[0]), cs[1..]);
      }
    }
  }

  // ----- labels of stored rows -----

  /** A fresh or aging row has no standing conflict, stale and offline rows have none at all, an unknown or
      conflicted row always says so. */
  predicate Consistent(r: Row) {
    && (!FailClosed(r.freshness) ==> !Clashes(r.conflict))
    && (r.freshness.Stale? || r.freshness.Offline? ==> r.conflict.NoConflict?)
    && (r.freshness.UnknownAge? || r.freshness.Conflicted? ==> !r.conflict.NoConflict?)
  }

  /** Label and conflict_status of the stored row belong together over any run, whatever the callers pass. */
  lemma {:induction false} LabelAndConflictAgree(stored: Row, cs: seq<Call>)
    requires Consistent(stored)
    ensures Consistent(RunAll(stored, cs))
    decreases |cs|
  {
    if cs != [] {
      if Decide(cs[0]).Some? {
        DecidedConsistent(cs[0].local, cs[0].obs, EffectUsed(cs[0]), cs[0].evidence, cs[0].now, cs[0].escalate);
      }
      LabelAndConflictAgree(After(stored, cs[0]), cs[1..]);
    }
  }

  /** A decision labels CONFLICTED exactly when it is a HOLD. */
  predicate Holding(d: Decision) {
    d.next.freshness.Conflicted? <==> d.action.Hold?
  }

  /** And so do they in every decision, whatever the input. */
  lemma DecidedConsistent(l: Local, obs: Option<Observation>, effect: Option<LocalEffect>, evidence: Option<Evidence>, now: int, escalate: bool)
    requires Reconcile(l, obs, effect, evidence, now, escalate).Some?
    ensures var d := Reconcile(l, obs, effect, evidence, now, escalate).value; Consistent(d.next) && Holding(d)
  {
    var source := if obs.Some? then obs.value.source else if InferFailClosed(l).Some? then InferFailClosed(l) else l.source;
    if source.None? || (!source.value.SOffline? && !source.value.SUnreachable? && !source.value.SUnknown?) {
      WithoutProviderConsistent(Base(l, now), source, now);
    }
    if obs.Some? { WithProviderConsistent(Base(l, now), obs.value, now, escalate); }
  }

  lemma WithoutProviderConsistent(base: Row, source: Option<Source>, now: int)
    requires source.None? || (!source.value.SOffline? && !source.value.SUnreachable? && !source.value.SUnknown?)
    ensures Consistent(WithoutProvider(base, source, now).next) && Holding(WithoutProvider(base, source, now))
  {
  }

  lemma WithProviderConsistent(base: Row, o: Observation, now: int, escalate: bool)
    ensures Consistent(WithProvider(base, o, now, escalate).next) && Holding(WithProvider(base, o, now, escalate))
  {
  }
}
