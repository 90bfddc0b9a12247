/**
 Backup sets and the restore rehearsal: freeze the writers, wipe and re-insert inside one transaction,
 compare fingerprints, mark the surfaces, thaw, record SUCCESS. A failure can strike at any point, with
 or without the process surviving to record it.
 */
module BackupRestore {
  import opened Wrappers
  import opened JsonText
  import opened CanonicalJson
  import opened Ids
  import opened DurableState
  import R = Recovery

  datatype Surface = PostgresPitr | ObjectStorage | GitRemote | DerivedIndexes

  const REQUIRED: seq<Surface> := [PostgresPitr, ObjectStorage, GitRemote, DerivedIndexes]

  /** The surfaces ORDER BY their name. */
  const BY_NAME: seq<Surface> := [DerivedIndexes, GitRemote, ObjectStorage, PostgresPitr]

  /** What payload_json holds: a labelled durable snapshot with its fingerprint, or any other JSON value. */
  datatype Payload = Durable(kind: Text, name: Text, durable: Snapshot, fingerprint: Text) | Plain(json: Json)

  const PITR_KIND: Text := [0x6c, 0x6f, 0x67, 0x69, 0x63, 0x61, 0x6c, 0x5f, 0x70, 0x69, 0x74, 0x72, 0x5f, 0x73, 0x6e, 0x61, 0x70, 0x73, 0x68, 0x6f, 0x74]

  datatype Artifact = Artifact(payload: Payload, sha: Text)

  type BackupSet = map<Surface, Artifact>

  /** Rows of other tenants, which share the primary keys and the events' dedupe keys. */
  datatype Foreign = Foreign(stateIds: set<Text>, eventIds: set<Text>, dedupeKeys: set<Text>)

  datatype Status = NoRehearsal | Running | RehearsalFailed | RehearsalSuccess

  datatype Point =
    | Loading | Freezing | Wiping | Inserting | Rebuilding | CheckingSurfaces
    | MarkingPostgres | MarkingDbos | MarkingProviders | Thawing | Recording

  /** The last thing a rehearsal got done. */
  datatype Stage = NotLoaded | Loaded | Frozen | Restored | Thawed | Finished

  function PayloadJson(e: Encoding, p: Payload): Json
    requires Shaped(e)
  {
    match p
    case Durable(kind, name, d, fp) => JObj(Object(e.payload, [JStr(kind), JStr(name), JsonOf(e, d), JStr(fp)]))
    case Plain(json) => json
  }

  function PayloadSha(sha: Text -> Text, e: Encoding, p: Payload): Text
    requires Shaped(e)
  {
    sha(Canonical(PayloadJson(e, p)))
  }

  /** The stored digest still is the payload's. */
  predicate Intact(sha: Text -> Text, e: Encoding, a: Artifact)
    requires Shaped(e)
  {
    PayloadSha(sha, e, a.payload) == a.sha
  }

  /** Every required surface is there and every payload matches its digest. */
  ghost predicate Loads(sha: Text -> Text, e: Encoding, b: BackupSet)
    requires Shaped(e)
  {
    (forall s: Surface :: s in b) && forall s | s in b :: Intact(sha, e, b[s])
  }

  ghost predicate ValidPayload(p: Payload) {
    match p
    case Durable(_, _, d, _) => ValidSnapshot(d)
    case Plain(json) => Valid(json)
  }

  lemma PayloadJsonValid(e: Encoding, p: Payload)
    requires Encodes(e) && ValidPayload(p)
    ensures Valid(PayloadJson(e, p))
  {
    if p.Durable? {
      SnapshotJsonValid(e, p.durable);
      var vs := [JStr(p.kind), JStr(p.name), JsonOf(e, p.durable), JStr(p.fingerprint)];
      assert forall i | 0 <= i < 4 :: Valid(vs[i]);
      ObjectFacts(e.payload, vs);
    }
  }

  /** A set that loads does not load with one surface missing, and with the payload of any one surface
      altered it loads exactly when the alteration only reorders keys. */
  lemma TamperingIsDetected(sha: Text -> Text, e: Encoding, b: BackupSet, s: Surface, altered: Payload)
    requires Digest(sha) && Encodes(e) && Loads(sha, e, b) && ValidPayload(b[s].payload) && ValidPayload(altered)
    ensures !Loads(sha, e, b - {s})
    ensures Loads(sha, e, b[s := b[s].(payload := altered)]) <==> Same(PayloadJson(e, b[s].payload), PayloadJson(e, altered))
  {
    assert s !in b - {s};
    PayloadJsonValid(e, b[s].payload);
    PayloadJsonValid(e, altered);
    CanonicalDecides(PayloadJson(e, b[s].payload), PayloadJson(e, altered));
    var b' := b[s := b[s].(payload := altered)];
    assert Intact(sha, e, b'[s]) ==> forall x: Surface :: x in b' && Intact(sha, e, b'[x]);
  }

  /** For the durable snapshot that means: agreeing on the tenant and every column of every row. */
  lemma SnapshotTampering(sha: Text -> Text, e: Encoding, b: BackupSet, altered: Snapshot)
    requires Digest(sha) && Encodes(e) && Loads(sha, e, b) && b[PostgresPitr].payload.Durable?
    requires ValidSnapshot(b[PostgresPitr].payload.durable) && ValidSnapshot(altered)
    ensures var p := b[PostgresPitr].payload;
      Loads(sha, e, b[PostgresPitr := b[PostgresPitr].(payload := p.(durable := altered))]) <==> SameSnapshot(e, p.durable, altered)
  {
    var p := b[PostgresPitr].payload;
    TamperingIsDetected(sha, e, b, PostgresPitr, p.(durable := altered));
    PayloadDecides(e, p.kind, p.name, JsonOf(e, p.durable), JsonOf(e, altered), p.fingerprint);
    SnapshotJsonSame(e, p.durable, altered);
  }

  lemma PayloadDecides(e: Encoding, kind: Text, name: Text, v: Json, w: Json, fp: Text)
    requires Encodes(e)
    ensures Same(JObj(Object(e.payload, [JStr(kind), JStr(name), v, JStr(fp)])), JObj(Object(e.payload, [JStr(kind), JStr(name), w, JStr(fp)])))
      <==> Same(v, w)
  {
    var vs, ws := [JStr(kind), JStr(name), v, JStr(fp)], [JStr(kind), JStr(name), w, JStr(fp)];
    ObjectSame(e.payload, vs, ws);
    if Same(v, w) {
      assert forall i | 0 <= i < 4 :: Same(vs[i], ws[i]);
    } else {
      assert !Same(vs[2], ws[2]);
    }
  }

  // ----- inserting rows -----

  function Concat<A>(a: Assoc<A>, b: Assoc<A>): Assoc<A> {
    if a.End? then b else Entry(a.key, a.value, Concat(a.rest, b))
  }

  lemma {:induction false} ConcatOne<A>(a: Assoc<A>, k: Text, v: A, b: Assoc<A>)
    ensures Concat(Concat(a, Entry(k, v, End)), b) == Concat(a, Entry(k, v, b))
    ensures Keys(Concat(a, Entry(k, v, End))) == Keys(a) + {k}
  {
    if a.Entry? { ConcatOne(a.rest, k, v, b); }
  }

  lemma {:induction false} ConcatEnd<A>(a: Assoc<A>)
    ensures Concat(a, End) == a
  {
    if a.Entry? { ConcatEnd(a.rest); }
  }

  predicate Has<A>(a: Assoc<A>, k: Text)
    ensures Has(a, k) <==> k in Keys(a)
  {
    a.Entry? && (a.key == k || Has(a.rest, k))
  }

  function RowIds<A>(id: A -> Text, a: Assoc<A>): set<Text> {
    if a.End? then {} else {id(a.value)} + RowIds(id, a.rest)
  }

  predicate DistinctIds<A>(id: A -> Text, a: Assoc<A>) {
    a.Entry? ==> id(a.value) !in RowIds(id, a.rest) && DistinctIds(id, a.rest)
  }

  /** No row repeats a key or an id, nor takes one of another tenant. */
  ghost predicate Insertable<A>(id: A -> Text, rows: Assoc<A>, ids: set<Text>, keys: set<Text>) {
    Distinct(rows) && DistinctIds(id, rows) && RowIds(id, rows) !! ids && Keys(rows) !! keys
  }

  /** One INSERT per snapshot row; a repeated key or id violates a unique constraint. */
  method InsertRows<A>(restore: A -> A, id: A -> Text, ids: set<Text>, keys: set<Text>, rows: Assoc<A>) returns (ok: bool, table: Assoc<A>)
    ensures ok <==> Insertable(id, rows, ids, keys)
    ensures ok ==> table == RestoreTable(restore, rows)
  {
    table := End;
    var todo, usedIds, usedKeys := rows, ids, keys;
    while todo.Entry?
      invariant Concat(table, MapRows(restore, todo)) == MapRows(restore, rows)
      invariant Insertable(id, rows, ids, keys) <==> Insertable(id, todo, usedIds, usedKeys)
      decreases todo
    {
      if todo.key in usedKeys || id(todo.value) in usedIds {
        return false, table;
      }
      ConcatOne(table, todo.key, restore(todo.value), MapRows(restore, todo.rest));
      table := Concat(table, Entry(todo.key, restore(todo.value), End));
      usedIds, usedKeys := usedIds + {id(todo.value)}, usedKeys + {todo.key};
      todo := todo.rest;
    }
    ConcatEnd(table);
    ok := true;
  }

  lemma {:induction false} MapRowsIds<A(!new)>(f: A -> A, id: A -> Text, a: Assoc<A>)
    requires forall x :: id(f(x)) == id(x)
    ensures RowIds(id, MapRows(f, a)) == RowIds(id, a)
    ensures DistinctIds(id, MapRows(f, a)) <==> DistinctIds(id, a)
  {
    if a.Entry? { MapRowsIds(f, id, a.rest); }
  }

  lemma {:induction false} InsertIds<A>(id: A -> Text, k: Text, v: A, a: Assoc<A>)
    ensures RowIds(id, Insert(k, v, a)) == {id(v)} + RowIds(id, a)
    ensures DistinctIds(id, Insert(k, v, a)) <==> id(v) !in RowIds(id, a) && DistinctIds(id, a)
  {
    if a.Entry? && !Less(k, a.key) { InsertIds(id, k, v, a.rest); }
  }

  lemma {:induction false} SortIds<A>(id: A -> Text, a: Assoc<A>)
    ensures RowIds(id, Sort(a)) == RowIds(id, a)
    ensures DistinctIds(id, Sort(a)) <==> DistinctIds(id, a)
  {
    if a.Entry? {
      SortIds(id, a.rest);
      InsertIds(id, a.key, a.value, Sort(a.rest));
    }
  }

  function StateId(r: StateRow): Text { r.id }
  function EventId(r: EventRow): Text { r.id }

  /** Both tables take the snapshot's rows: state keys are unique per tenant, the rest across tenants. */
  ghost predicate Fits(d: Snapshot, others: Foreign) {
    Insertable(StateId, d.states, others.stateIds, {}) && Insertable(EventId, d.events, others.eventIds, others.dedupeKeys)
  }

  lemma RestoredIsValid(s: Snapshot, tenant: Text)
    requires ValidSnapshot(s)
    ensures ValidSnapshot(ReadDurableState(tenant, RestoreTable(RestoreState, s.states), RestoreTable(RestoreEvent, s.events)))
  {
    ReadKeepsStates(s.states);
    ReadKeepsEvents(s.events);
  }

  lemma ReadKeepsStates(a: Assoc<StateRow>)
    requires Distinct(a) && AllRows(ValidState, a)
    ensures var t := ReadTable(ReadState, RestoreTable(RestoreState, a)); Distinct(t) && AllRows(ValidState, t)
  {
    var table := RestoreTable(RestoreState, a);
    MapRowsFacts(RestoreState, a);
    SortFacts(table);
    SortedStaysPut(Sort(table));
    MapRowsFacts(ReadState, Sort(table));
    forall k | k in Keys(a) ensures ValidState(ReadState(RestoreState(Get(a, k)))) {
      assert ValidState(Get(a, k));
    }
  }

  lemma ReadKeepsEvents(a: Assoc<EventRow>)
    requires Distinct(a) && AllRows(ValidEvent, a)
    ensures var t := ReadTable(ReadEvent, RestoreTable(RestoreEvent, a)); Distinct(t) && AllRows(ValidEvent, t)
  {
    var table := RestoreTable(RestoreEvent, a);
    MapRowsFacts(RestoreEvent, a);
    SortFacts(table);
    SortedStaysPut(Sort(table));
    MapRowsFacts(ReadEvent, Sort(table));
    forall k | k in Keys(a) ensures ValidEvent(ReadEvent(RestoreEvent(Get(a, k)))) {
      assert ValidEvent(Get(a, k));
    }
  }

  /** Restoring the artifact into wiped tables of the tenant reads back as the artifact's own snapshot. */
  ghost predicate Restorable(sha: Text -> Text, e: Encoding, tenant: Text, others: Foreign, p: Payload)
    requires Shaped(e)
  {
    && p.Durable? && (p.durable.tenant == [] || p.durable.tenant == tenant)
    && (p.fingerprint == [] || p.fingerprint == Fingerprint(sha, e, p.durable))
    && Fits(p.durable, others)
    && SameSnapshot(e, ReadDurableState(tenant, RestoreTable(RestoreState, p.durable.states), RestoreTable(RestoreEvent, p.durable.events)), p.durable)
  }

  ghost predicate ReadsBack(e: Encoding, s: Snapshot, p: Payload) {
    p.Durable? && SameSnapshot(e, s, p.durable)
  }

  /** The stage at which a loaded rehearsal ends: before the freeze, inside the restore transaction, before the thaw,
      before SUCCESS is recorded, or not at all. */
  predicate Reaches(fails: Point -> bool, restorable: bool, stage: Stage) {
    match stage
    case NotLoaded => false
    case Loaded => fails(Freezing)
    case _ =>
      !fails(Freezing) &&
      if stage.Frozen? then fails(Wiping) || fails(Inserting) || fails(Rebuilding) || fails(CheckingSurfaces) || !restorable
      else
        && !fails(Wiping) && !fails(Inserting) && !fails(Rebuilding) && !fails(CheckingSurfaces) && restorable
        && (stage.Restored? <==> fails(MarkingPostgres) || fails(MarkingDbos) || fails(MarkingProviders) || fails(Thawing))
        && (stage.Thawed? ==> fails(Recording)) && (stage.Finished? ==> !fails(Recording))
  }

  predicate Undisturbed(fails: Point -> bool) {
    && !fails(Loading) && !fails(Freezing) && !fails(Wiping) && !fails(Inserting) && !fails(Rebuilding) && !fails(CheckingSurfaces)
    && !fails(MarkingPostgres) && !fails(MarkingDbos) && !fails(MarkingProviders) && !fails(Thawing) && !fails(Recording)
  }

  /** The rows found for an epoch. */
  function RowsOf(backups: map<nat, BackupSet>, epoch: nat): BackupSet {
    if epoch in backups then backups[epoch] else map[]
  }

  datatype Load = LoadedSet(rows: BackupSet) | NotFound | Incomplete(missing: seq<Surface>) | Tampered(surface: Surface)

  function Absent(b: BackupSet, surfaces: seq<Surface>): seq<Surface> {
    if surfaces == [] then []
    else
      var last := surfaces[|surfaces| - 1];
      Absent(b, surfaces[..|surfaces| - 1]) + if last in b then [] else [last]
  }

  lemma {:induction false} AbsentMeans(b: BackupSet, surfaces: seq<Surface>)
    ensures Absent(b, surfaces) == [] <==> forall s | s in surfaces :: s in b
    ensures forall s :: s in Absent(b, surfaces) <==> s in surfaces && s !in b
  {
    if surfaces != [] {
      var init, last := surfaces[..|surfaces| - 1], surfaces[|surfaces| - 1];
      AbsentMeans(b, init);
      assert surfaces == init + [last];
    }
  }

  lemma AllSurfaces(s: Surface)
    ensures s in REQUIRED && s in BY_NAME
  {
    match s
    case PostgresPitr => assert REQUIRED[0] == s && BY_NAME[3] == s;
    case ObjectStorage => assert REQUIRED[1] == s && BY_NAME[2] == s;
    case GitRemote => assert REQUIRED[2] == s && BY_NAME[1] == s;
    case DerivedIndexes => assert REQUIRED[3] == s && BY_NAME[0] == s;
  }

  /** The postgres_pitr payload is a snapshot, or at least has a member of that name. */
  predicate HasDurable(e: Encoding, p: Payload)
    requires Shaped(e)
  {
    p.Durable? || (p.json.JObj? && Has(p.json.fields, e.payload[2]))
  }

  /** Its payload is altered, and those of the surfaces named before it are not. */
  ghost predicate FirstAltered(sha: Text -> Text, e: Encoding, b: BackupSet, s: Surface)
    requires Shaped(e)
  {
    && s in b && !Intact(sha, e, b[s])
    && exists i | 0 <= i < |BY_NAME| && BY_NAME[i] == s :: forall j | 0 <= j < i :: BY_NAME[j] in b ==> Intact(sha, e, b[BY_NAME[j]])
  }

  /** The rehearsal can start: the set loads and names a snapshot. */
  ghost predicate Loadable(sha: Text -> Text, e: Encoding, backups: map<nat, BackupSet>, epoch: nat)
    requires Shaped(e)
  {
    epoch in backups && Loads(sha, e, backups[epoch]) && HasDurable(e, backups[epoch][PostgresPitr].payload)
  }

  /** Unique rows make a valid snapshot. */
  ghost predicate SoundPayload(p: Payload) {
    p.Durable? && Distinct(p.durable.states) && Distinct(p.durable.events) ==> ValidSnapshot(p.durable)
  }

  /** The digest is collision free, columns are named apart, and artifacts hold JSON columns. */
  ghost predicate Sound(sha: Text -> Text, e: Encoding, backups: map<nat, BackupSet>) {
    && Digest(sha) && Encodes(e)
    && forall n, s | n in backups && s in backups[n] :: SoundPayload(backups[n][s].payload)
  }

  // ----- the runtime -----

  class BackupRuntime {
    const tenant: Text
    const sha: Text -> Text
    const e: Encoding
    const control: R.RecoveryControl
    var states: Assoc<StateRow>
    var events: Assoc<EventRow>
    const describe: (Surface, nat, Text) -> Json
    var others: Foreign
    var backups: map<nat, BackupSet>
    var lastEpoch: nat
    var rehearsal: Status

    /** Table keys are unique and the stored artifacts are sound. */
    ghost predicate Valid()
      reads this
    {
      Sound(sha, e, backups) && Distinct(states) && Distinct(events)
    }

    constructor (tenant0: Text, sha0: Text -> Text, e0: Encoding, control0: R.RecoveryControl,
                 describe0: (Surface, nat, Text) -> Json, others0: Foreign, states0: Assoc<StateRow>, events0: Assoc<EventRow>)
      requires Digest(sha0) && Encodes(e0) && Distinct(states0) && Distinct(events0)
      ensures Valid() && tenant == tenant0 && sha == sha0 && e == e0 && control == control0
      ensures describe == describe0 && others == others0
      ensures states == states0 && events == events0 && backups == map[] && rehearsal == NoRehearsal
    {
      tenant, sha, e, control, describe, others := tenant0, sha0, e0, control0, describe0, others0;
      states, events, backups, lastEpoch, rehearsal := states0, events0, map[], 0, NoRehearsal;
    }

    /** createBackupSet: the next epoch holds the snapshot of the tables as they are, with what describes the
        other surfaces; the set loads. */
    method CreateBackupSet(name: Text) returns (epoch: nat)
      requires Valid() && ValidSnapshot(ReadDurableState(tenant, states, events))
      modifies this`backups, this`lastEpoch
      ensures Valid() && epoch == old(lastEpoch) + 1 == lastEpoch
      ensures epoch in backups && backups == old(backups)[epoch := backups[epoch]] && Loads(sha, e, backups[epoch])
      ensures forall s: Surface :: s in backups[epoch] && backups[epoch][s].payload == PayloadOf(s, epoch, name, ReadDurableState(tenant, states, events))
    {
      epoch := lastEpoch + 1;
      var durable := ReadDurableState(tenant, states, events);
      var rows: BackupSet := map[];
      for i := 0 to |REQUIRED|
        invariant forall s | s in rows :: s in REQUIRED[..i] && rows[s].payload == PayloadOf(s, epoch, name, durable) && Intact(sha, e, rows[s])
        invariant forall s | s in REQUIRED[..i] :: s in rows
      {
        var payload := PayloadOf(REQUIRED[i], epoch, name, durable);
        rows := rows[REQUIRED[i] := Artifact(payload, PayloadSha(sha, e, payload))];
        assert REQUIRED[..i + 1] == REQUIRED[..i] + [REQUIRED[i]];
      }
      assert REQUIRED[..|REQUIRED|] == REQUIRED;
      forall s: Surface ensures s in rows { AllSurfaces(s); }
      backups := backups[epoch := rows];
      lastEpoch := epoch;
    }

    /** What a backup writes for a surface. */
    function PayloadOf(s: Surface, epoch: nat, name: Text, durable: Snapshot): Payload
      reads this
      requires Shaped(e)
    {
      var fp := Fingerprint(sha, e, durable);
      if s.PostgresPitr? then Durable(PITR_KIND, name, durable, fp) else Plain(describe(s, epoch, fp))
    }

    /** loadBackupSet: the epoch's rows load exactly when every required surface is present and every payload
        matches its digest; otherwise the first thing wrong is reported. */
    method LoadBackupSet(epoch: nat) returns (r: Load)
      requires Valid()
      ensures r.LoadedSet? <==> Loads(sha, e, RowsOf(backups, epoch))
      ensures r.LoadedSet? ==> r.rows == RowsOf(backups, epoch)
      ensures r.NotFound? <==> RowsOf(backups, epoch) == map[]
      ensures r.Incomplete? ==> r.missing == Absent(RowsOf(backups, epoch), REQUIRED) != []
      ensures r.Incomplete? <==> RowsOf(backups, epoch) != map[] && Absent(RowsOf(backups, epoch), REQUIRED) != []
      ensures r.Tampered? ==> FirstAltered(sha, e, RowsOf(backups, epoch), r.surface)
    {
      var rows := RowsOf(backups, epoch);
      if rows == map[] {
        assert PostgresPitr !in rows;
        return NotFound;
      }
      var missing: seq<Surface> := [];
      for i := 0 to |REQUIRED|
        invariant missing == Absent(rows, REQUIRED[..i])
      {
        assert REQUIRED[..i + 1][..i] == REQUIRED[..i];
        if REQUIRED[i] !in rows {
          missing := missing + [REQUIRED[i]];
        }
      }
      assert REQUIRED[..|REQUIRED|] == REQUIRED;
      AbsentMeans(rows, REQUIRED);
      if missing != [] {
        return Incomplete(missing);
      }
      for i := 0 to |BY_NAME|
        invariant forall j | 0 <= j < i :: BY_NAME[j] in rows ==> Intact(sha, e, rows[BY_NAME[j]])
      {
        if BY_NAME[i] in rows && !Intact(sha, e, rows[BY_NAME[i]]) {
          return Tampered(BY_NAME[i]);
        }
      }
      forall s: Surface ensures s in rows && Intact(sha, e, rows[s]) { AllSurfaces(s); }
      r := LoadedSet(rows);
    }

    /** The postgres_pitr payload to rehearse with. */
    method PostgresArtifact(epoch: nat) returns (p: Option<Payload>)
      requires Valid()
      ensures p.Some? == Loadable(sha, e, backups, epoch)
      ensures p.Some? ==> p.value == backups[epoch][PostgresPitr].payload && SoundPayload(p.value)
    {
      p := None;
      var load := LoadBackupSet(epoch);
      if load.LoadedSet? && HasDurable(e, load.rows[PostgresPitr].payload) {
        p := Some(load.rows[PostgresPitr].payload);
      }
    }

    /** The restore transaction: what the tables would be, or a failure that commits nothing. */
    method RestoreTransaction(b: Payload, fails: Point -> bool)
      returns (ok: bool, states': Assoc<StateRow>, events': Assoc<EventRow>)
      requires Valid()
      requires SoundPayload(b)
      ensures ok ==>
        && b.Durable? && Distinct(states') && Distinct(events')
        && SameSnapshot(e, ReadDurableState(tenant, states', events'), b.durable)
      ensures ok <==>
        !fails(Wiping) && !fails(Inserting) && !fails(Rebuilding) && !fails(CheckingSurfaces) && Restorable(sha, e, tenant, others, b)
    {
      ok, states', events' := false, End, End;
      if fails(Wiping) || b.Plain? || (b.durable.tenant != [] && b.durable.tenant != tenant) {
        return;
      }
      if b.fingerprint != [] && b.fingerprint != Fingerprint(sha, e, b.durable) {
        return;
      }
      var inserted;
      inserted, states' := InsertRows(RestoreState, StateId, others.stateIds, {}, b.durable.states);
      if !inserted {
        return;
      }
      inserted, events' := InsertRows(RestoreEvent, EventId, others.eventIds, others.dedupeKeys, b.durable.events);
      if !inserted || fails(Inserting) || fails(Rebuilding) || fails(CheckingSurfaces) {
        return;
      }
      MapRowsFacts(RestoreState, b.durable.states);
      MapRowsFacts(RestoreEvent, b.durable.events);
      var restored := ReadDurableState(tenant, states', events');
      RestoredIsValid(b.durable, tenant);
      FingerprintDecides(sha, e, restored, b.durable);
      ok := Fingerprint(sha, e, restored) == Fingerprint(sha, e, b.durable);
    }

    /** Mark all three surfaces and reopen; a failure on the way leaves the writers frozen. */
    method ReconcileAndThaw(fails: Point -> bool) returns (ok: bool)
      requires control.frozen
      modifies control
      ensures control.epoch == old(control.epoch)
      ensures ok == !control.frozen
      ensures control.postgres == (old(control.postgres) || !fails(MarkingPostgres))
      ensures control.dbos == (old(control.dbos) || (!fails(MarkingPostgres) && !fails(MarkingDbos)))
      ensures control.providers == (old(control.providers) || (!fails(MarkingPostgres) && !fails(MarkingDbos) && !fails(MarkingProviders)))
      ensures ok <==> !fails(MarkingPostgres) && !fails(MarkingDbos) && !fails(MarkingProviders) && !fails(Thawing)
    {
      if fails(MarkingPostgres) {
        return false;
      }
      var _ := control.MarkSurface(R.Postgres);
      if fails(MarkingDbos) {
        return false;
      }
      var _ := control.MarkSurface(R.DbosState);
      if fails(MarkingProviders) {
        return false;
      }
      var _ := control.MarkSurface(R.Providers);
      if fails(Thawing) {
        return false;
      }
      var _ := control.Complete();
      ok := true;
    }

    /** From the freeze on: restore in one transaction, then reconcile and thaw. */
    method RestoreUnderFreeze(b: Payload, fails: Point -> bool) returns (stage: Stage)
      requires Valid()
      requires SoundPayload(b)
      modifies this`states, this`events, control
      ensures Valid() && (stage.Frozen? || stage.Restored? || stage.Thawed?)
      ensures stage.Frozen? ==> states == old(states) && events == old(events)
      ensures !stage.Frozen? ==> b.Durable? && SameSnapshot(e, ReadDurableState(tenant, states, events), b.durable)
      ensures control.epoch == old(control.epoch) + 1 && control.frozen == !stage.Thawed?
      ensures stage.Frozen? <==>
        fails(Wiping) || fails(Inserting) || fails(Rebuilding) || fails(CheckingSurfaces) || !Restorable(sha, e, tenant, others, b)
      ensures stage.Restored? <==> !stage.Frozen? && (fails(MarkingPostgres) || fails(MarkingDbos) || fails(MarkingProviders) || fails(Thawing))
      ensures control.postgres == (!stage.Frozen? && !fails(MarkingPostgres))
      ensures control.dbos == (!stage.Frozen? && !fails(MarkingPostgres) && !fails(MarkingDbos))
      ensures control.providers == (!stage.Frozen? && !fails(MarkingPostgres) && !fails(MarkingDbos) && !fails(MarkingProviders))
    {
      control.Begin();
      stage := Frozen;
      var ok, states', events' := RestoreTransaction(b, fails);
      if ok {
        states, events, stage := states', events', Restored;
        var open := ReconcileAndThaw(fails);
        if open {
          stage := Thawed;
        }
      }
    }

    /** The rehearsal of a loaded artifact, from its RUNNING row on. */
    method Rehearse(b: Payload, fails: Point -> bool, survives: bool) returns (stage: Stage)
      requires Valid() && SoundPayload(b)
      modifies this`states, this`events, this`rehearsal, control
      ensures Valid() && !stage.NotLoaded?
      ensures rehearsal == if stage.Finished? then RehearsalSuccess else if survives then RehearsalFailed else Running
      ensures stage.Loaded? || stage.Frozen? || ReadsBack(e, ReadDurableState(tenant, states, events), b)
      ensures stage.Loaded? || stage.Frozen? ==> states == old(states) && events == old(events)
      ensures stage.Loaded? ==> control.Current() == old(control.Current())
      ensures !stage.Loaded? ==> control.frozen == (stage.Frozen? || stage.Restored?) && control.epoch == old(control.epoch) + 1
      ensures Undisturbed(fails) ==> (stage.Finished? <==> Restorable(sha, e, tenant, others, b))
      ensures Reaches(fails, Restorable(sha, e, tenant, others, b), stage)
    {
      rehearsal, stage := Running, Loaded;
      if !fails(Freezing) {
        stage := RestoreUnderFreeze(b, fails);
        if stage.Thawed? && !fails(Recording) {
          rehearsal, stage := RehearsalSuccess, Finished;
          return;
        }
      }
      if survives {
        rehearsal := RehearsalFailed;
      }
    }

    /** runRestoreRehearsal; `survives` tells whether the process lives to record a failure. */
    method RunRestoreRehearsal(epoch: nat, fails: Point -> bool, survives: bool) returns (stage: Stage)
      requires Valid()
      modifies this`states, this`events, this`rehearsal, control
      ensures Valid()
      // SUCCESS only with the backed-up snapshot read back from open tables
      ensures rehearsal.RehearsalSuccess? && stage != NotLoaded <==> stage.Finished?
      ensures stage.NotLoaded? || stage.Loaded? || stage.Frozen?
        || (Loadable(sha, e, backups, epoch) && ReadsBack(e, ReadDurableState(tenant, states, events), backups[epoch][PostgresPitr].payload))
      // a failure inside the restore transaction, or before it, leaves the tables untouched
      ensures stage.NotLoaded? || stage.Loaded? || stage.Frozen? ==> states == old(states) && events == old(events)
      // a failure after the freeze and before the thaw leaves the writers frozen
      ensures stage.NotLoaded? || stage.Loaded? ==> control.Current() == old(control.Current())
      ensures stage.Frozen? || stage.Restored? ==> control.frozen && control.epoch == old(control.epoch) + 1
      ensures stage.Thawed? || stage.Finished? ==> !control.frozen && control.epoch == old(control.epoch) + 1
      // what is recorded about a failure
      ensures !stage.NotLoaded? && !stage.Finished? ==> rehearsal == if survives then RehearsalFailed else Running
      ensures stage.NotLoaded? ==> rehearsal == old(rehearsal)
      // exactly where it ends, and so when it succeeds
      ensures stage.NotLoaded? <==> fails(Loading) || !Loadable(sha, e, backups, epoch)
      ensures stage.NotLoaded? || Reaches(fails, Restorable(sha, e, tenant, others, backups[epoch][PostgresPitr].payload), stage)
      ensures Undisturbed(fails) ==> (stage.Finished? <==> Loadable(sha, e, backups, epoch) && Restorable(sha, e, tenant, others, backups[epoch][PostgresPitr].payload))
    {
      stage := NotLoaded;
      var b := PostgresArtifact(epoch);
      if fails(Loading) || b.None? {
        return;
      }
      stage := Rehearse(b.value, fails, survives);
    }
  }

  lemma {:induction false} SameRefl(v: Json)
    ensures Same(v, v)
  {
    match v
    case JArr(l) => SameAllRefl(l);
    case JObj(f) => forall k | k in Keys(f) ensures Same(Field(f, k), Field(f, k)) { SameRefl(Field(f, k)); }
    case _ =>
  }

  lemma {:induction false} SameAllRefl(l: List<Json>)
    ensures SameAll(l, l)
  {
    if l.Cons? { SameRefl(l.head); SameAllRefl(l.tail); }
  }

  /** What a snapshot of the tables fits into is what the tables themselves fit into. */
  lemma SnapshotFits(tenant: Text, states: Assoc<StateRow>, events: Assoc<EventRow>, others: Foreign)
    requires Distinct(states) && Distinct(events)
    ensures Fits(ReadDurableState(tenant, states, events), others) <==> Fits(Snapshot(tenant, states, events), others)
  {
    SortFacts(states);
    SortFacts(events);
    SortedStaysPut(Sort(states));
    SortedStaysPut(Sort(events));
    MapRowsFacts(ReadState, Sort(states));
    MapRowsFacts(ReadEvent, Sort(events));
    SortIds(StateId, states);
    SortIds(EventId, events);
    MapRowsIds(ReadState, StateId, Sort(states));
    MapRowsIds(ReadEvent, EventId, Sort(events));
  }

  /** A restored row reads back with the same columns exactly when it is storable. */
  lemma StateColumnsReturn(e: Encoding, key: Text, r: StateRow)
    ensures (forall i | 0 <= i < 15 :: Same(StateColumns(e, key, ReadState(RestoreState(r)))[i], StateColumns(e, key, r)[i])) <==> StorableState(r)
  {
    var cs, ds := StateColumns(e, key, ReadState(RestoreState(r))), StateColumns(e, key, r);
    assert forall x: int :: (x * 1000) / 1000 == x;
    assert BACKUP_RESTORE != [] && FRESH != [] && NO_CONFLICT != [];
    if StorableState(r) {
      forall i | 0 <= i < 15 ensures Same(cs[i], ds[i]) { SameRefl(ds[i]); }
    } else {
      assert !Same(cs[4], ds[4]) || !Same(cs[6], ds[6]) || !Same(cs[11], ds[11]) || !Same(cs[12], ds[12]) || !Same(cs[14], ds[14]);
    }
  }

  lemma EventColumnsReturn(e: Encoding, key: Text, r: EventRow)
    ensures (forall i | 0 <= i < 17 :: Same(EventColumns(e, key, ReadEvent(RestoreEvent(r)))[i], EventColumns(e, key, r)[i])) <==> StorableEvent(r)
  {
    var cs, ds := EventColumns(e, key, ReadEvent(RestoreEvent(r))), EventColumns(e, key, r);
    assert forall x: int :: (x * 1000) / 1000 == x;
    assert BACKUP_RESTORE != [] && TRUSTED != [];
    if StorableEvent(r) {
      forall i | 0 <= i < 17 ensures Same(cs[i], ds[i]) { SameRefl(ds[i]); }
    } else {
      assert !Same(cs[2], ds[2]) || !Same(cs[7], ds[7]) || !Same(cs[8], ds[8]) || !Same(cs[14], ds[14]);
    }
  }

  /** All rows satisfy `p`, when every key is unique: the first one and the rest. */
  lemma RowByRow<A(!new)>(p: A -> bool, a: Assoc<A>)
    requires a.Entry? && Distinct(a)
    ensures AllRows(p, a) <==> p(a.value) && AllRows(p, a.rest)
  {
    if AllRows(p, a) { RestKeeps(p, a); }
  }

  lemma {:induction false} StatesReturn(e: Encoding, a: Assoc<StateRow>)
    requires Distinct(a)
    ensures SameStates(e, MapRows(ReadState, MapRows(RestoreState, a)), a) <==> AllRows(StorableState, a)
  {
    if a.Entry? {
      StateColumnsReturn(e, a.key, a.value);
      StatesReturn(e, a.rest);
      RowByRow(StorableState, a);
    }
  }

  lemma {:induction false} EventsReturn(e: Encoding, a: Assoc<EventRow>)
    requires Distinct(a)
    ensures SameEvents(e, MapRows(ReadEvent, MapRows(RestoreEvent, a)), a) <==> AllRows(StorableEvent, a)
  {
    if a.Entry? {
      EventColumnsReturn(e, a.key, a.value);
      EventsReturn(e, a.rest);
      RowByRow(StorableEvent, a);
    }
  }

  /** Reading the restored snapshot of a table maps its rows in place, and keeps what `p` says of them. */
  lemma ReadBack<A(!new)>(read: A -> A, restore: A -> A, p: A -> bool, table: Assoc<A>)
    requires Distinct(table) && forall x :: p(read(x)) == p(x)
    ensures var snap := ReadTable(read, table);
      && Distinct(snap) && ReadTable(read, RestoreTable(restore, snap)) == MapRows(read, MapRows(restore, snap))
      && (AllRows(p, snap) <==> AllRows(p, table))
  {
    SortFacts(table);
    SortedStaysPut(Sort(table));
    MapRowsFacts(read, Sort(table));
    var snap := ReadTable(read, table);
    MapRowsFacts(restore, snap);
    SortedStaysPut(MapRows(restore, snap));
    forall k | k in Keys(table) ensures p(Get(snap, k)) == p(Get(table, k)) { }
  }

  /** A backup is restorable exactly when every row of the tables it was taken of is storable and, by then, no
      other tenant holds one of their ids or dedupe keys. */
  lemma RestorableExactlyWhen(sha: Text -> Text, e: Encoding, tenant: Text, name: Text, states: Assoc<StateRow>, events: Assoc<EventRow>,
                              others: Foreign)
    requires Shaped(e) && Distinct(states) && Distinct(events)
    ensures var d := ReadDurableState(tenant, states, events);
      Restorable(sha, e, tenant, others, Durable(PITR_KIND, name, d, Fingerprint(sha, e, d)))
      <==> AllRows(StorableState, states) && AllRows(StorableEvent, events) && Fits(Snapshot(tenant, states, events), others)
  {
    var d := ReadDurableState(tenant, states, events);
    SnapshotFits(tenant, states, events, others);
    ReadBack(ReadState, RestoreState, StorableState, states);
    ReadBack(ReadEvent, RestoreEvent, StorableEvent, events);
    StatesReturn(e, d.states);
    EventsReturn(e, d.events);
  }
}
