/**
 Identifiers derived from canonical text: request hashes, idempotency keys and task-lock hashes.
 SHA-256 is any injective function on texts.
 */
module Ids {
  import opened Wrappers
  import opened JsonText
  import opened CanonicalJson

  ghost predicate Digest(sha: Text -> Text) {
    forall t, u :: sha(t) == sha(u) ==> t == u
  }

  // ----- requests and effects -----

  function RequestHash(sha: Text -> Text, request: Json): Text {
    sha(Canonical(request))
  }

  /** The parts are joined with no separator. */
  function KeyText(tenant: Text, workflow: Text, step: Text, capability: Text, hash: Text): Text {
    tenant + workflow + step + capability + hash
  }

  function IdempotencyKey(sha: Text -> Text, tenant: Text, workflow: Text, step: Text, capability: Text, hash: Text): Text {
    sha(KeyText(tenant, workflow, step, capability, hash))
  }

  lemma SplitAt(a: Text, b: Text, c: Text, d: Text)
    requires |a| == |c| && a + b == c + d
    ensures a == c && b == d
  {
    assert (a + b)[..|a|] == a && (c + d)[..|c|] == c;
    assert (a + b)[|a|..] == b && (c + d)[|c|..] == d;
  }

  /** With ids and hashes of fixed length, the joined text determines every part except where the step
      id ends and the capability id begins. */
  lemma KeyTextDecides(t: Text, w: Text, s: Text, c: Text, h: Text, t': Text, w': Text, s': Text, c': Text, h': Text)
    requires |t| == |t'| && |w| == |w'| && |h| == |h'|
    ensures KeyText(t, w, s, c, h) == KeyText(t', w', s', c', h') <==> t == t' && w == w' && s + c == s' + c' && h == h'
  {
    assert KeyText(t, w, s, c, h) == t + (w + ((s + c) + h));
    assert KeyText(t', w', s', c', h') == t' + (w' + ((s' + c') + h'));
    if KeyText(t, w, s, c, h) == KeyText(t', w', s', c', h') {
      SplitAt(t, w + ((s + c) + h), t', w' + ((s' + c') + h'));
      SplitAt(w, (s + c) + h, w', (s' + c') + h');
      SplitAt(s + c, h, s' + c', h');
    }
  }

  /** Two effects with tenant ids, workflow ids and request hashes of fixed length share their idempotency key exactly when
      tenant, workflow and step+capability agree and the requests are equal up to key order. */
  lemma EffectKeyDecides(sha: Text -> Text, t: Text, w: Text, s: Text, c: Text, r: Json, t': Text, w': Text, s': Text, c': Text, r': Json)
    requires Digest(sha) && Valid(r) && Valid(r') && |t| == |t'| && |w| == |w'|
    requires |RequestHash(sha, r)| == |RequestHash(sha, r')|
    ensures IdempotencyKey(sha, t, w, s, c, RequestHash(sha, r)) == IdempotencyKey(sha, t', w', s', c', RequestHash(sha, r'))
            <==> t == t' && w == w' && s + c == s' + c' && Same(r, r')
  {
    KeyTextDecides(t, w, s, c, RequestHash(sha, r), t', w', s', c', RequestHash(sha, r'));
    CanonicalDecides(r, r');
  }

  /** Step and capability are not separately recoverable: moving a character across the boundary
      leaves the key unchanged. */
  lemma StepAndCapabilityBlur(sha: Text -> Text, t: Text, w: Text, s: Text, x: Unit, c: Text, h: Text)
    ensures IdempotencyKey(sha, t, w, s + [x], c, h) == IdempotencyKey(sha, t, w, s, [x] + c, h)
  {
    assert KeyText(t, w, s + [x], c, h) == KeyText(t, w, s, [x] + c, h);
  }

  // ----- objects with a fixed list of keys -----

  function Object(keys: seq<Text>, values: seq<Json>): Assoc<Json>
    requires |keys| == |values|
  {
    if keys == [] then End else Entry(keys[0], values[0], Object(keys[1..], values[1..]))
  }

  predicate Unique(keys: seq<Text>) {
    forall i, j | 0 <= i < j < |keys| :: keys[i] != keys[j]
  }

  lemma {:induction false} ObjectFacts(keys: seq<Text>, values: seq<Json>)
    requires |keys| == |values| && Unique(keys)
    ensures forall k :: k in Keys(Object(keys, values)) <==> k in keys
    ensures forall i | 0 <= i < |keys| :: Get(Object(keys, values), keys[i]) == values[i]
    ensures Distinct(Object(keys, values))
    ensures (forall i | 0 <= i < |keys| :: Valid(values[i])) ==> ValidFields(Object(keys, values))
    decreases |keys|
  {
    if keys != [] {
      ObjectFacts(keys[1..], values[1..]);
      forall i | 0 <= i < |keys| ensures Get(Object(keys, values), keys[i]) == values[i] {
        if i > 0 { assert keys[i] == keys[1..][i - 1] && values[i] == values[1..][i - 1]; }
      }
      assert keys[0] !in keys[1..];
    }
  }

  /** Objects with the same keys are the same exactly when their members are. */
  lemma ObjectSame(keys: seq<Text>, vs: seq<Json>, ws: seq<Json>)
    requires |keys| == |vs| == |ws| && Unique(keys)
    ensures Same(JObj(Object(keys, vs)), JObj(Object(keys, ws))) <==> forall i | 0 <= i < |keys| :: Same(vs[i], ws[i])
  {
    var f, g := Object(keys, vs), Object(keys, ws);
    ObjectFacts(keys, vs);
    ObjectFacts(keys, ws);
    assert Keys(f) == Keys(g);
    forall i | 0 <= i < |keys| ensures Field(f, keys[i]) == vs[i] && Field(g, keys[i]) == ws[i] {}
    if Same(JObj(f), JObj(g)) {
      forall i | 0 <= i < |keys| ensures Same(vs[i], ws[i]) { assert Same(Field(f, keys[i]), Field(g, keys[i])); }
    }
    if forall i | 0 <= i < |keys| :: Same(vs[i], ws[i]) {
      forall k | k in Keys(f) ensures Same(Field(f, k), Field(g, k)) { var i :| 0 <= i < |keys| && keys[i] == k; }
    }
  }

  function Strings(ts: seq<Text>): List<Json> {
    if ts == [] then Nil else Cons(JStr(ts[0]), Strings(ts[1..]))
  }

  lemma {:induction false} StringsSame(a: seq<Text>, b: seq<Text>)
    ensures ValidAll(Strings(a))
    ensures SameAll(Strings(a), Strings(b)) <==> a == b
    decreases |a|
  {
    if a != [] && b != [] {
      StringsSame(a[1..], b[1..]);
      assert a == [a[0]] + a[1..] && b == [b[0]] + b[1..];
    } else if a != [] {
      StringsSame(a[1..], []);
    }
  }

  // ----- sorted lists of names -----

  function InsertText(t: Text, ts: seq<Text>): seq<Text> {
    if ts == [] || !Less(ts[0], t) then [t] + ts else [ts[0]] + InsertText(t, ts[1..])
  }

  /** `[...names].sort()` */
  function SortTexts(ts: seq<Text>): seq<Text> {
    if ts == [] then [] else InsertText(ts[0], SortTexts(ts[1..]))
  }

  predicate Ascending(ts: seq<Text>) {
    forall i, j | 0 <= i < j < |ts| :: !Less(ts[j], ts[i])
  }

  lemma {:induction false} InsertTextContents(t: Text, ts: seq<Text>)
    ensures multiset(InsertText(t, ts)) == multiset(ts) + multiset{t}
    decreases |ts|
  {
    if ts != [] && Less(ts[0], t) {
      InsertTextContents(t, ts[1..]);
      assert ts == [ts[0]] + ts[1..];
    }
  }

  lemma AscendingPrepend(h: Text, ts: seq<Text>)
    requires Ascending(ts) && forall j | 0 <= j < |ts| :: !Less(ts[j], h)
    ensures Ascending([h] + ts)
  {
  }

  lemma {:induction false} InsertTextFacts(t: Text, ts: seq<Text>)
    requires Ascending(ts)
    ensures multiset(InsertText(t, ts)) == multiset(ts) + multiset{t}
    ensures Ascending(InsertText(t, ts))
    decreases |ts|
  {
    InsertTextContents(t, ts);
    if ts != [] && Less(ts[0], t) {
      InsertTextFacts(t, ts[1..]);
      var r := InsertText(t, ts[1..]);
      forall j | 0 <= j < |r| ensures !Less(r[j], ts[0]) {
        assert r[j] in multiset(r);
        LessTotal(ts[0], t);
        if r[j] != t { assert r[j] in ts[1..]; }
      }
      AscendingPrepend(ts[0], r);
    } else {
      forall j | 0 <= j < |ts| ensures !Less(ts[j], t) {
        if Less(ts[j], t) { NotLessTrans(ts, j, t); }
      }
      AscendingPrepend(t, ts);
    }
  }

  lemma NotLessTrans(ts: seq<Text>, j: nat, t: Text)
    requires Ascending(ts) && j < |ts| && Less(ts[j], t)
    ensures Less(ts[0], t)
  {
    LessTotal(ts[0], ts[j]);
    if j > 0 && ts[0] != ts[j] { LessTransitive(ts[0], ts[j], t); }
  }

  lemma {:induction false} SortTextsFacts(ts: seq<Text>)
    ensures multiset(SortTexts(ts)) == multiset(ts) && Ascending(SortTexts(ts))
    decreases |ts|
  {
    if ts != [] {
      SortTextsFacts(ts[1..]);
      InsertTextFacts(ts[0], SortTexts(ts[1..]));
      assert ts == [ts[0]] + ts[1..];
    }
  }

  lemma AscendingHead(a: seq<Text>, b: seq<Text>)
    requires Ascending(a) && Ascending(b) && a != [] && b != [] && a[0] in b && b[0] in a
    ensures a[0] == b[0]
  {
    LessTotal(a[0], b[0]);
  }

  lemma WithoutHead(a: seq<Text>)
    requires a != []
    ensures a == [a[0]] + a[1..] && multiset(a[1..]) == multiset(a) - multiset{a[0]}
  {
    assert a == [a[0]] + a[1..];
  }

  lemma {:induction false} AscendingUnique(a: seq<Text>, b: seq<Text>)
    requires Ascending(a) && Ascending(b) && multiset(a) == multiset(b)
    ensures a == b
    decreases |a|
  {
    if a == [] || b == [] {
      assert |multiset(a)| == |a| && |multiset(b)| == |b|;
    } else {
      assert a[0] in multiset(b) && b[0] in multiset(a);
      AscendingHead(a, b);
      WithoutHead(a);
      WithoutHead(b);
      AscendingUnique(a[1..], b[1..]);
    }
  }

  /** Sorting forgets exactly the order. */
  lemma SortTextsDecides(a: seq<Text>, b: seq<Text>)
    ensures SortTexts(a) == SortTexts(b) <==> multiset(a) == multiset(b)
  {
    SortTextsFacts(a);
    SortTextsFacts(b);
    if multiset(a) == multiset(b) { AscendingUnique(SortTexts(a), SortTexts(b)); }
  }

  // ----- the task lock -----

  datatype Task = Task(
    id: Text, intent: Text, intentVersion: Text, acceptanceRef: Text,
    allowedPaths: seq<Text>, providers: seq<Text>, tools: seq<Text>, mode: Option<Text>,
    reviewRequired: bool)

  const LOCK_KEYS: seq<Text> := [
    [0x74, 0x61, 0x73, 0x6b, 0x5f, 0x69, 0x64],                                                         // task_id
    [0x69, 0x6e, 0x74, 0x65, 0x6e, 0x74],                                                               // intent
    [0x69, 0x6e, 0x74, 0x65, 0x6e, 0x74, 0x5f, 0x76, 0x65, 0x72, 0x73, 0x69, 0x6f, 0x6e],               // intent_version
    [0x61, 0x63, 0x63, 0x65, 0x70, 0x74, 0x61, 0x6e, 0x63, 0x65, 0x5f, 0x72, 0x65, 0x66],               // acceptance_ref
    [0x61, 0x6c, 0x6c, 0x6f, 0x77, 0x65, 0x64, 0x5f, 0x70, 0x61, 0x74, 0x68, 0x73],                     // allowed_paths
    [0x74, 0x6f, 0x6f, 0x6c, 0x5f, 0x6d, 0x61, 0x6e, 0x69, 0x66, 0x65, 0x73, 0x74],                     // tool_manifest
    [0x72, 0x65, 0x76, 0x69, 0x65, 0x77, 0x5f, 0x72, 0x65, 0x71, 0x75, 0x69, 0x72, 0x65, 0x64]]         // review_required
  const MANIFEST_KEYS: seq<Text> := [
    [0x70, 0x72, 0x6f, 0x76, 0x69, 0x64, 0x65, 0x72, 0x73],                                             // providers
    [0x74, 0x6f, 0x6f, 0x6c, 0x73],                                                                     // tools
    [0x6d, 0x6f, 0x64, 0x65]]                                                                           // mode
  const BUILD: Text := [0x62, 0x75, 0x69, 0x6c, 0x64]

  function Mode(t: Task): Text {
    if t.mode.None? then BUILD else t.mode.value
  }

  function Manifest(t: Task): seq<Json> {
    [JArr(Strings(SortTexts(t.providers))), JArr(Strings(SortTexts(t.tools))), JStr(Mode(t))]
  }

  function LockPayload(t: Task): seq<Json> {
    [JStr(t.id), JStr(t.intent), JNum(t.intentVersion), JStr(t.acceptanceRef),
     JArr(Strings(SortTexts(t.allowedPaths))), JObj(Object(MANIFEST_KEYS, Manifest(t))), JBool(t.reviewRequired)]
  }

  function TaskHash(sha: Text -> Text, t: Task): Text {
    sha(Canonical(JObj(Object(LOCK_KEYS, LockPayload(t)))))
  }

  lemma ManifestFacts(t: Task, u: Task)
    ensures Valid(JObj(Object(MANIFEST_KEYS, Manifest(t))))
    ensures Same(JObj(Object(MANIFEST_KEYS, Manifest(t))), JObj(Object(MANIFEST_KEYS, Manifest(u)))) <==>
              multiset(t.providers) == multiset(u.providers) && multiset(t.tools) == multiset(u.tools) && Mode(t) == Mode(u)
  {
    var vs, ws := Manifest(t), Manifest(u);
    ManifestKeysUnique();
    NamesSame(t.providers, u.providers);
    NamesSame(t.tools, u.tools);
    ObjectFacts(MANIFEST_KEYS, vs);
    ObjectSame(MANIFEST_KEYS, vs, ws);
    ThreeFold(vs, ws);
  }

  lemma ManifestKeysUnique()
    ensures Unique(MANIFEST_KEYS)
  {
    assert |MANIFEST_KEYS[0]| == 9 && |MANIFEST_KEYS[1]| == 5 && |MANIFEST_KEYS[2]| == 4;
  }

  /** A sorted list of names prints the same exactly when the same names occur equally often. */
  lemma NamesSame(a: seq<Text>, b: seq<Text>)
    ensures Valid(JArr(Strings(SortTexts(a))))
    ensures Same(JArr(Strings(SortTexts(a))), JArr(Strings(SortTexts(b)))) <==> multiset(a) == multiset(b)
  {
    StringsSame(SortTexts(a), SortTexts(b));
    SortTextsDecides(a, b);
  }

  lemma ThreeFold(vs: seq<Json>, ws: seq<Json>)
    requires |vs| == |ws| == 3
    ensures (forall i | 0 <= i < 3 :: Same(vs[i], ws[i])) <==> Same(vs[0], ws[0]) && Same(vs[1], ws[1]) && Same(vs[2], ws[2])
  {
  }

  lemma LockKeysUnique()
    ensures Unique(LOCK_KEYS)
  {
    assert |LOCK_KEYS[0]| == 7 && |LOCK_KEYS[1]| == 6 && |LOCK_KEYS[2]| == 14 && |LOCK_KEYS[3]| == 14;
    assert |LOCK_KEYS[4]| == 13 && |LOCK_KEYS[5]| == 13 && |LOCK_KEYS[6]| == 15;
    assert LOCK_KEYS[2][0] != LOCK_KEYS[3][0] && LOCK_KEYS[4][0] != LOCK_KEYS[5][0];
  }

  /** Equal in every field that matters; the order of paths, providers and tools does not. */
  ghost predicate Equivalent(t: Task, u: Task) {
    && t.id == u.id && t.intent == u.intent && t.intentVersion == u.intentVersion
    && t.acceptanceRef == u.acceptanceRef && t.reviewRequired == u.reviewRequired
    && multiset(t.allowedPaths) == multiset(u.allowedPaths)
    && multiset(t.providers) == multiset(u.providers) && multiset(t.tools) == multiset(u.tools)
    && Mode(t) == Mode(u)
  }

  lemma SevenFold(vs: seq<Json>, ws: seq<Json>)
    requires |vs| == |ws| == 7
    ensures (forall i | 0 <= i < 7 :: Same(vs[i], ws[i])) <==>
              && Same(vs[0], ws[0]) && Same(vs[1], ws[1]) && Same(vs[2], ws[2]) && Same(vs[3], ws[3])
              && Same(vs[4], ws[4]) && Same(vs[5], ws[5]) && Same(vs[6], ws[6])
  {
  }

  lemma LockMembersSame(t: Task, u: Task)
    ensures (forall i | 0 <= i < 7 :: Same(LockPayload(t)[i], LockPayload(u)[i])) <==> Equivalent(t, u)
  {
    SevenFold(LockPayload(t), LockPayload(u));
    SevenSame(t, u);
  }

  lemma SevenSame(t: Task, u: Task)
    ensures var p, q := LockPayload(t), LockPayload(u);
      (Same(p[0], q[0]) && Same(p[1], q[1]) && Same(p[2], q[2]) && Same(p[3], q[3]) && Same(p[4], q[4]) && Same(p[5], q[5]) && Same(p[6], q[6]))
      <==> Equivalent(t, u)
  {
    var p, q := LockPayload(t), LockPayload(u);
    assert Same(p[4], q[4]) <==> multiset(t.allowedPaths) == multiset(u.allowedPaths) by {
      NamesSame(t.allowedPaths, u.allowedPaths);
    }
    assert Same(p[5], q[5]) <==>
      multiset(t.providers) == multiset(u.providers) && multiset(t.tools) == multiset(u.tools) && Mode(t) == Mode(u) by {
      ManifestFacts(t, u);
    }
  }

  lemma LockMembersValid(t: Task)
    requires ValidLexeme(t.intentVersion)
    ensures forall i | 0 <= i < 7 :: Valid(LockPayload(t)[i])
  {
    ManifestFacts(t, t);
    NamesSame(t.allowedPaths, t.allowedPaths);
  }

  /** The content hash of a locked task changes with every material change of a field and ignores only
      the order of allowed paths, providers and tools and a spelled-out default mode. */
  lemma TaskHashDecides(sha: Text -> Text, t: Task, u: Task)
    requires Digest(sha) && ValidLexeme(t.intentVersion) && ValidLexeme(u.intentVersion)
    ensures TaskHash(sha, t) == TaskHash(sha, u) <==> Equivalent(t, u)
  {
    LockKeysUnique();
    LockMembersSame(t, u);
    LockMembersValid(t);
    LockMembersValid(u);
    ObjectFacts(LOCK_KEYS, LockPayload(t));
    ObjectFacts(LOCK_KEYS, LockPayload(u));
    ObjectSame(LOCK_KEYS, LockPayload(t), LockPayload(u));
    CanonicalDecides(JObj(Object(LOCK_KEYS, LockPayload(t))), JObj(Object(LOCK_KEYS, LockPayload(u))));
  }
}
