/**
 The durable rows a backup captures, the snapshot read from them and the rows a restore inserts.
 Tables list rows by their unique key; database times are microseconds, snapshot times milliseconds.
 */
module DurableState {
  import opened Wrappers
  import opened JsonText
  import opened CanonicalJson
  import opened Ids

  /** current_state_records without its key column state_key. */
  datatype StateRow = StateRow(
    id: Text, domain: Text, subject: Text, value: Json, version: Text, system: Text,
    asOf: Option<int>, observed: int, verified: Option<int>, maxAge: int,
    freshness: Text, conflict: Text, lastEvent: Option<Text>, evidence: Json)

  /** canonical_events without its key column dedupe_key. */
  datatype EventRow = EventRow(
    id: Text, kind: Text, system: Text, connection: Option<Text>, sourceEvent: Option<Text>,
    occurred: Option<int>, received: int, subjects: Json, properties: Json, evidence: Option<Text>,
    schemaVersion: int, authenticity: Text, authMethod: Option<Text>, trust: Text,
    verificationEvidence: Option<Text>, materialized: bool)

  datatype Snapshot = Snapshot(tenant: Text, states: Assoc<StateRow>, events: Assoc<EventRow>)

  // ----- reading and restoring a row -----

  /** normalizeTs of a timestamp: a JavaScript date keeps whole milliseconds. */
  function ToMs(us: int): int { us / 1000 }

  function MsOption(us: Option<int>): Option<int> {
    if us.Some? then Some(ToMs(us.value)) else None
  }

  function UsOption(ms: Option<int>): Option<int> {
    if ms.Some? then Some(ms.value * 1000) else None
  }

  const BACKUP_RESTORE: Text := [0x62, 0x61, 0x63, 0x6b, 0x75, 0x70, 0x5f, 0x72, 0x65, 0x73, 0x74, 0x6f, 0x72, 0x65]
  const FRESH: Text := [0x46, 0x52, 0x45, 0x53, 0x48]
  const NO_CONFLICT: Text := [0x4e, 0x4f, 0x4e, 0x45]
  const TRUSTED: Text := [0x54, 0x52, 0x55, 0x53, 0x54, 0x45, 0x44, 0x5f, 0x53, 0x54, 0x52, 0x55, 0x43, 0x54, 0x55, 0x52, 0x45, 0x44]

  /** `text || fallback`. */
  function OrText(t: Text, fallback: Text): Text {
    if t == [] then fallback else t
  }

  /** `json ?? fallback`. */
  function OrJson(v: Json, fallback: Json): Json {
    if v.JNull? then fallback else v
  }

  function ReadState(r: StateRow): StateRow {
    r.(asOf := MsOption(r.asOf), observed := ToMs(r.observed), verified := MsOption(r.verified))
  }

  function RestoreState(r: StateRow): StateRow {
    r.(value := OrJson(r.value, JObj(End)), system := OrText(r.system, BACKUP_RESTORE),
       asOf := UsOption(r.asOf), observed := r.observed * 1000, verified := UsOption(r.verified),
       freshness := OrText(r.freshness, FRESH), conflict := OrText(r.conflict, NO_CONFLICT),
       evidence := OrJson(r.evidence, JArr(Nil)))
  }

  function ReadEvent(r: EventRow): EventRow {
    r.(occurred := MsOption(r.occurred), received := ToMs(r.received))
  }

  function RestoreEvent(r: EventRow): EventRow {
    r.(system := OrText(r.system, BACKUP_RESTORE), occurred := UsOption(r.occurred), received := r.received * 1000,
       subjects := OrJson(r.subjects, JArr(Nil)), properties := OrJson(r.properties, JObj(End)),
       trust := OrText(r.trust, TRUSTED))
  }

  /** Text columns with a default are non-empty and JSON columns are not JSON null. The CHECK constraints
      already keep freshness, conflict_status and content_trust non-empty. */
  predicate StorableState(r: StateRow) {
    r.system != [] && !r.value.JNull? && !r.evidence.JNull? && r.freshness != [] && r.conflict != []
  }

  predicate StorableEvent(r: EventRow) {
    r.system != [] && !r.subjects.JNull? && !r.properties.JNull? && r.trust != []
  }

  predicate WholeMs(us: Option<int>) {
    us.Some? ==> us.value % 1000 == 0
  }

  predicate ExactState(r: StateRow) {
    StorableState(r) && WholeMs(r.asOf) && WholeMs(Some(r.observed)) && WholeMs(r.verified)
  }

  predicate ExactEvent(r: EventRow) {
    StorableEvent(r) && WholeMs(r.occurred) && WholeMs(Some(r.received))
  }

  /** A restored row reads back as its snapshot exactly when it is storable, and is the original row,
      microseconds included, exactly when its times are also whole milliseconds. */
  lemma StateRowRoundTrip(r: StateRow)
    ensures ReadState(RestoreState(ReadState(r))) == ReadState(r) <==> StorableState(r)
    ensures RestoreState(ReadState(r)) == r <==> ExactState(r)
  {
    assert BACKUP_RESTORE != [] && FRESH != [] && NO_CONFLICT != [];
    assert forall x: int :: (x * 1000) / 1000 == x;
    assert forall x: int :: (x / 1000) * 1000 == x <==> x % 1000 == 0;
  }

  lemma EventRowRoundTrip(r: EventRow)
    ensures ReadEvent(RestoreEvent(ReadEvent(r))) == ReadEvent(r) <==> StorableEvent(r)
    ensures RestoreEvent(ReadEvent(r)) == r <==> ExactEvent(r)
  {
    assert BACKUP_RESTORE != [] && TRUSTED != [];
    assert forall x: int :: (x * 1000) / 1000 == x;
    assert forall x: int :: (x / 1000) * 1000 == x <==> x % 1000 == 0;
  }

  // ----- tables -----

  function MapRows<A, B>(f: A -> B, a: Assoc<A>): Assoc<B> {
    if a.End? then End else Entry(a.key, f(a.value), MapRows(f, a.rest))
  }

  /** SELECT ... ORDER BY key, each row normalised. */
  function ReadTable<A>(read: A -> A, table: Assoc<A>): Assoc<A> {
    MapRows(read, Sort(table))
  }

  /** The rows a restore inserts, in snapshot order, into the wiped table. */
  function RestoreTable<A>(restore: A -> A, rows: Assoc<A>): Assoc<A> {
    MapRows(restore, rows)
  }

  ghost predicate AllRows<A(!new)>(p: A -> bool, a: Assoc<A>) {
    forall k | k in Keys(a) :: p(Get(a, k))
  }

  lemma {:induction false} MapRowsFacts<A, B>(f: A -> B, a: Assoc<A>)
    ensures Keys(MapRows(f, a)) == Keys(a)
    ensures forall k | k in Keys(a) :: Get(MapRows(f, a), k) == f(Get(a, k))
    ensures Sorted(a) ==> Sorted(MapRows(f, a))
    ensures Distinct(a) ==> Distinct(MapRows(f, a))
  {
    if a.Entry? { MapRowsFacts(f, a.rest); }
  }

  lemma {:induction false} SortedStaysPut<A>(a: Assoc<A>)
    requires Sorted(a)
    ensures Sort(a) == a && Distinct(a)
  {
    SortedDistinct(a);
    SortFacts(a);
    SortedUnique(Sort(a), a);
  }

  /** Mapping a sorted table with `f` gives the same table exactly when `f` keeps every row. */
  lemma MapKeeps<A(!new)>(f: A -> A, a: Assoc<A>)
    requires Sorted(a)
    ensures MapRows(f, a) == a <==> forall k | k in Keys(a) :: f(Get(a, k)) == Get(a, k)
  {
    MapRowsFacts(f, a);
    if forall k | k in Keys(a) :: f(Get(a, k)) == Get(a, k) {
      SortedUnique(MapRows(f, a), a);
    }
  }

  lemma {:induction false} MapTwice<A>(f: A -> A, g: A -> A, a: Assoc<A>)
    ensures MapRows(f, MapRows(g, a)) == MapRows(x => f(g(x)), a)
  {
    if a.Entry? { MapTwice(f, g, a.rest); }
  }

  /** A row whose restored form reads back as its snapshot, and a row the restore gives back unchanged. */
  ghost predicate Returns<A>(read: A -> A, restore: A -> A, r: A) {
    read(restore(read(r))) == read(r)
  }

  ghost predicate Survives<A>(read: A -> A, restore: A -> A, r: A) {
    restore(read(r)) == r
  }

  /** Wiping a table and restoring its snapshot reproduces the snapshot exactly when every row does. */
  lemma SnapshotRoundTrip<A(!new)>(read: A -> A, restore: A -> A, p: A -> bool, table: Assoc<A>)
    requires Distinct(table) && forall k | k in Keys(table) :: Returns(read, restore, Get(table, k)) == p(Get(table, k))
    ensures ReadTable(read, RestoreTable(restore, ReadTable(read, table))) == ReadTable(read, table) <==> AllRows(p, table)
  {
    SortFacts(table);
    var snap := ReadTable(read, table);
    MapRowsFacts(read, Sort(table));
    MapRowsFacts(restore, snap);
    SortedStaysPut(MapRows(restore, snap));
    MapTwice(read, restore, snap);
    MapKeeps(x => read(restore(x)), snap);
    forall k | k in Keys(table)
      ensures Get(snap, k) == read(Get(table, k))
      ensures read(restore(Get(snap, k))) == Get(snap, k) <==> p(Get(table, k))
    {
      assert Returns(read, restore, Get(table, k)) == p(Get(table, k));
    }
  }

  /** The restored table is the original one, in key order, exactly when every row survives unchanged. */
  lemma ExactRoundTrip<A(!new)>(read: A -> A, restore: A -> A, p: A -> bool, table: Assoc<A>)
    requires Distinct(table) && forall k | k in Keys(table) :: Survives(read, restore, Get(table, k)) == p(Get(table, k))
    ensures RestoreTable(restore, ReadTable(read, table)) == Sort(table) <==> AllRows(p, table)
  {
    SortFacts(table);
    MapTwice(restore, read, Sort(table));
    MapKeeps(x => restore(read(x)), Sort(table));
    forall k | k in Keys(table)
      ensures restore(read(Get(Sort(table), k))) == Get(Sort(table), k) <==> p(Get(table, k))
    {
      assert Survives(read, restore, Get(table, k)) == p(Get(table, k));
    }
  }

  // ----- the snapshot of a tenant -----

  function ReadDurableState(tenant: Text, states: Assoc<StateRow>, events: Assoc<EventRow>): Snapshot {
    Snapshot(tenant, ReadTable(ReadState, states), ReadTable(ReadEvent, events))
  }

  /** Restoring a snapshot into wiped tables and reading it back gives that snapshot exactly when every
      row it was taken from is storable. */
  lemma DurableRoundTrip(tenant: Text, states: Assoc<StateRow>, events: Assoc<EventRow>)
    requires Distinct(states) && Distinct(events)
    ensures var s := ReadDurableState(tenant, states, events);
      && (ReadDurableState(tenant, RestoreTable(RestoreState, s.states), RestoreTable(RestoreEvent, s.events)) == s
          <==> AllRows(StorableState, states) && AllRows(StorableEvent, events))
      && (RestoreTable(RestoreState, s.states) == Sort(states) <==> AllRows(ExactState, states))
      && (RestoreTable(RestoreEvent, s.events) == Sort(events) <==> AllRows(ExactEvent, events))
  {
    StatesRoundTrip(states);
    EventsRoundTrip(events);
  }

  lemma StatesRoundTrip(states: Assoc<StateRow>)
    requires Distinct(states)
    ensures ReadTable(ReadState, RestoreTable(RestoreState, ReadTable(ReadState, states))) == ReadTable(ReadState, states)
      <==> AllRows(StorableState, states)
    ensures RestoreTable(RestoreState, ReadTable(ReadState, states)) == Sort(states) <==> AllRows(ExactState, states)
  {
    forall k | k in Keys(states)
      ensures Returns(ReadState, RestoreState, Get(states, k)) == StorableState(Get(states, k))
      ensures Survives(ReadState, RestoreState, Get(states, k)) == ExactState(Get(states, k))
    {
      StateRowRoundTrip(Get(states, k));
    }
    SnapshotRoundTrip(ReadState, RestoreState, StorableState, states);
    ExactRoundTrip(ReadState, RestoreState, ExactState, states);
  }

  lemma EventsRoundTrip(events: Assoc<EventRow>)
    requires Distinct(events)
    ensures ReadTable(ReadEvent, RestoreTable(RestoreEvent, ReadTable(ReadEvent, events))) == ReadTable(ReadEvent, events)
      <==> AllRows(StorableEvent, events)
    ensures RestoreTable(RestoreEvent, ReadTable(ReadEvent, events)) == Sort(events) <==> AllRows(ExactEvent, events)
  {
    forall k | k in Keys(events)
      ensures Returns(ReadEvent, RestoreEvent, Get(events, k)) == StorableEvent(Get(events, k))
      ensures Survives(ReadEvent, RestoreEvent, Get(events, k)) == ExactEvent(Get(events, k))
    {
      EventRowRoundTrip(Get(events, k));
    }
    SnapshotRoundTrip(ReadEvent, RestoreEvent, StorableEvent, events);
    ExactRoundTrip(ReadEvent, RestoreEvent, ExactEvent, events);
  }

  // ----- fingerprints -----

  /** Column names, and the texts of timestamps and numbers. */
  datatype Encoding = Encoding(top: seq<Text>, state: seq<Text>, event: seq<Text>, payload: seq<Text>, iso: int -> Text, num: int -> Text)

  predicate Shaped(e: Encoding) {
    |e.top| == 3 && |e.state| == 15 && |e.event| == 17 && |e.payload| == 4
  }

  ghost predicate Encodes(e: Encoding) {
    && Shaped(e)
    && Unique(e.top) && Unique(e.state) && Unique(e.event) && Unique(e.payload)
    && forall n :: ValidLexeme(e.num(n))
  }

  function TextOption(t: Option<Text>): Json {
    if t.Some? then JStr(t.value) else JNull
  }

  function TimeOption(e: Encoding, t: Option<int>): Json {
    if t.Some? then JStr(e.iso(t.value)) else JNull
  }

  function StateColumns(e: Encoding, key: Text, r: StateRow): seq<Json> {
    [JStr(r.id), JStr(key), JStr(r.domain), JStr(r.subject), r.value, JStr(r.version), JStr(r.system),
     TimeOption(e, r.asOf), JStr(e.iso(r.observed)), TimeOption(e, r.verified), JNum(e.num(r.maxAge)),
     JStr(r.freshness), JStr(r.conflict), TextOption(r.lastEvent), r.evidence]
  }

  function EventColumns(e: Encoding, key: Text, r: EventRow): seq<Json> {
    [JStr(r.id), JStr(r.kind), JStr(r.system), TextOption(r.connection), TextOption(r.sourceEvent),
     TimeOption(e, r.occurred), JStr(e.iso(r.received)), r.subjects, r.properties, JStr(key), TextOption(r.evidence),
     JNum(e.num(r.schemaVersion)), JStr(r.authenticity), TextOption(r.authMethod), JStr(r.trust),
     TextOption(r.verificationEvidence), JBool(r.materialized)]
  }

  function StatesJson(e: Encoding, a: Assoc<StateRow>): List<Json>
    requires Shaped(e)
  {
    if a.End? then Nil else Cons(JObj(Object(e.state, StateColumns(e, a.key, a.value))), StatesJson(e, a.rest))
  }

  function EventsJson(e: Encoding, a: Assoc<EventRow>): List<Json>
    requires Shaped(e)
  {
    if a.End? then Nil else Cons(JObj(Object(e.event, EventColumns(e, a.key, a.value))), EventsJson(e, a.rest))
  }

  function JsonOf(e: Encoding, s: Snapshot): Json
    requires Shaped(e)
  {
    JObj(Object(e.top, [JStr(s.tenant), JArr(StatesJson(e, s.states)), JArr(EventsJson(e, s.events))]))
  }

  function Fingerprint(sha: Text -> Text, e: Encoding, s: Snapshot): Text
    requires Shaped(e)
  {
    sha(Canonical(JsonOf(e, s)))
  }

  ghost predicate ValidState(r: StateRow) {
    Valid(r.value) && Valid(r.evidence)
  }

  ghost predicate ValidEvent(r: EventRow) {
    Valid(r.subjects) && Valid(r.properties)
  }

  /** Keys are unique, as the tables demand, and JSON columns hold JSON. */
  ghost predicate ValidSnapshot(s: Snapshot) {
    && Distinct(s.states) && AllRows(ValidState, s.states)
    && Distinct(s.events) && AllRows(ValidEvent, s.events)
  }

  lemma RestKeeps<A(!new)>(p: A -> bool, a: Assoc<A>)
    requires a.Entry? && Distinct(a) && AllRows(p, a)
    ensures p(a.value) && AllRows(p, a.rest)
  {
    assert Get(a, a.key) == a.value;
    forall k | k in Keys(a.rest) ensures p(Get(a.rest, k)) { assert Get(a, k) == Get(a.rest, k); }
  }

  lemma {:induction false} StatesJsonValid(e: Encoding, a: Assoc<StateRow>)
    requires Encodes(e) && Distinct(a) && AllRows(ValidState, a)
    ensures ValidAll(StatesJson(e, a))
  {
    if a.Entry? {
      RestKeeps(ValidState, a);
      assert ValidState(a.value);
      var cs := StateColumns(e, a.key, a.value);
      assert forall i | 0 <= i < |cs| :: Valid(cs[i]);
      ObjectFacts(e.state, cs);
      StatesJsonValid(e, a.rest);
    }
  }

  lemma {:induction false} EventsJsonValid(e: Encoding, a: Assoc<EventRow>)
    requires Encodes(e) && Distinct(a) && AllRows(ValidEvent, a)
    ensures ValidAll(EventsJson(e, a))
  {
    if a.Entry? {
      RestKeeps(ValidEvent, a);
      assert ValidEvent(a.value);
      var cs := EventColumns(e, a.key, a.value);
      assert forall i | 0 <= i < |cs| :: Valid(cs[i]);
      ObjectFacts(e.event, cs);
      EventsJsonValid(e, a.rest);
    }
  }

  lemma SnapshotJsonValid(e: Encoding, s: Snapshot)
    requires Encodes(e) && ValidSnapshot(s)
    ensures Valid(JsonOf(e, s))
  {
    StatesJsonValid(e, s.states);
    EventsJsonValid(e, s.events);
    var vs := [JStr(s.tenant), JArr(StatesJson(e, s.states)), JArr(EventsJson(e, s.events))];
    assert forall i | 0 <= i < |vs| :: Valid(vs[i]);
    ObjectFacts(e.top, vs);
  }

  /** Row by row, column by column, equal up to the key order inside JSON columns. */
  ghost predicate SameStates(e: Encoding, a: Assoc<StateRow>, b: Assoc<StateRow>) {
    && a.Entry? == b.Entry?
    && (a.Entry? ==>
          && (forall i | 0 <= i < 15 :: Same(StateColumns(e, a.key, a.value)[i], StateColumns(e, b.key, b.value)[i]))
          && SameStates(e, a.rest, b.rest))
  }

  ghost predicate SameEvents(e: Encoding, a: Assoc<EventRow>, b: Assoc<EventRow>) {
    && a.Entry? == b.Entry?
    && (a.Entry? ==>
          && (forall i | 0 <= i < 17 :: Same(EventColumns(e, a.key, a.value)[i], EventColumns(e, b.key, b.value)[i]))
          && SameEvents(e, a.rest, b.rest))
  }

  ghost predicate SameSnapshot(e: Encoding, s: Snapshot, t: Snapshot) {
    s.tenant == t.tenant && SameStates(e, s.states, t.states) && SameEvents(e, s.events, t.events)
  }

  lemma {:induction false} StatesJsonSame(e: Encoding, a: Assoc<StateRow>, b: Assoc<StateRow>)
    requires Encodes(e)
    ensures SameAll(StatesJson(e, a), StatesJson(e, b)) <==> SameStates(e, a, b)
  {
    if a.Entry? && b.Entry? {
      ObjectSame(e.state, StateColumns(e, a.key, a.value), StateColumns(e, b.key, b.value));
      StatesJsonSame(e, a.rest, b.rest);
    }
  }

  lemma {:induction false} EventsJsonSame(e: Encoding, a: Assoc<EventRow>, b: Assoc<EventRow>)
    requires Encodes(e)
    ensures SameAll(EventsJson(e, a), EventsJson(e, b)) <==> SameEvents(e, a, b)
  {
    if a.Entry? && b.Entry? {
      ObjectSame(e.event, EventColumns(e, a.key, a.value), EventColumns(e, b.key, b.value));
      EventsJsonSame(e, a.rest, b.rest);
    }
  }

  /** Two snapshots have the same fingerprint exactly when they agree on the tenant and on every column of
      every row. */
  lemma FingerprintDecides(sha: Text -> Text, e: Encoding, s: Snapshot, t: Snapshot)
    requires Digest(sha) && Encodes(e) && ValidSnapshot(s) && ValidSnapshot(t)
    ensures Fingerprint(sha, e, s) == Fingerprint(sha, e, t) <==> SameSnapshot(e, s, t)
  {
    SnapshotJsonValid(e, s);
    SnapshotJsonValid(e, t);
    CanonicalDecides(JsonOf(e, s), JsonOf(e, t));
    SnapshotJsonSame(e, s, t);
  }

  lemma TopSame(e: Encoding, a: Text, v1: Json, v2: Json, b: Text, w1: Json, w2: Json)
    requires Encodes(e)
    ensures Same(JObj(Object(e.top, [JStr(a), v1, v2])), JObj(Object(e.top, [JStr(b), w1, w2])))
      <==> a == b && Same(v1, w1) && Same(v2, w2)
  {
    ObjectSame(e.top, [JStr(a), v1, v2], [JStr(b), w1, w2]);
    ThreeFold([JStr(a), v1, v2], [JStr(b), w1, w2]);
  }

  lemma SnapshotJsonSame(e: Encoding, s: Snapshot, t: Snapshot)
    requires Encodes(e)
    ensures Same(JsonOf(e, s), JsonOf(e, t)) <==> SameSnapshot(e, s, t)
  {
    var v1, v2 := JArr(StatesJson(e, s.states)), JArr(EventsJson(e, s.events));
    var w1, w2 := JArr(StatesJson(e, t.states)), JArr(EventsJson(e, t.events));
    assert Same(v1, w1) == SameStates(e, s.states, t.states) by { StatesJsonSame(e, s.states, t.states); }
    assert Same(v2, w2) == SameEvents(e, s.events, t.events) by { EventsJsonSame(e, s.events, t.events); }
    TopSame(e, s.tenant, v1, v2, t.tenant, w1, w2);
  }
}
