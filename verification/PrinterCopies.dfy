/**
 The repository carries five copies of the canonical printer. Four print `undefined` as null; the one
 in the backup code hands every non-object to JSON.stringify, which has no text for `undefined`.
 */
module PrinterCopies {
  import opened Wrappers
  import opened JsonText
  import opened CanonicalJson

  /** A JavaScript value built from JSON leaves, arrays, objects and `undefined`. */
  datatype Js =
    | JsUndefined
    | JsLeaf(leaf: Json)
    | JsArr(elems: List<Js>)
    | JsObj(fields: Assoc<Js>)

  const UNDEFINED_TEXT: Text := [0x75, 0x6e, 0x64, 0x65, 0x66, 0x69, 0x6e, 0x65, 0x64]

  // ----- the four copies that test for null and undefined first -----

  function CanonicalJs(v: Js): Text {
    match v
    case JsUndefined => NULL_TEXT
    case JsLeaf(leaf) => Canonical(leaf)
    case JsArr(l) => [OPEN_BRACKET] + Join(CanonicalJsAll(l)) + [CLOSE_BRACKET]
    case JsObj(f) => [OPEN_BRACE] + Join(Members(Sort(CanonicalJsFields(f)))) + [CLOSE_BRACE]
  }

  function CanonicalJsAll(l: List<Js>): List<Text> {
    if l.Nil? then Nil else Cons(CanonicalJs(l.head), CanonicalJsAll(l.tail))
  }

  function CanonicalJsFields(a: Assoc<Js>): Assoc<Text> {
    if a.End? then End else Entry(a.key, CanonicalJs(a.value), CanonicalJsFields(a.rest))
  }

  // ----- the backup copy: no text for undefined -----

  function StableStringify(v: Js): Option<Text> {
    match v
    case JsUndefined => None
    case JsLeaf(leaf) => Some(Canonical(leaf))
    case JsArr(l) => Some([OPEN_BRACKET] + Join(StableAll(l)) + [CLOSE_BRACKET])
    case JsObj(f) => Some([OPEN_BRACE] + Join(Members(Sort(StableFields(f)))) + [CLOSE_BRACE])
  }

  /** `join` writes nothing for an undefined element. */
  function StableAll(l: List<Js>): List<Text> {
    if l.Nil? then Nil
    else
      var t := StableStringify(l.head);
      Cons(if t.None? then [] else t.value, StableAll(l.tail))
  }

  /** A template literal writes the word. */
  function StableFields(a: Assoc<Js>): Assoc<Text> {
    if a.End? then End
    else
      var t := StableStringify(a.value);
      Entry(a.key, if t.None? then UNDEFINED_TEXT else t.value, StableFields(a.rest))
  }

  // ----- they agree on JSON values -----

  function Lift(v: Json): Js {
    match v
    case JArr(l) => JsArr(LiftAll(l))
    case JObj(f) => JsObj(LiftFields(f))
    case _ => JsLeaf(v)
  }

  function LiftAll(l: List<Json>): List<Js> {
    if l.Nil? then Nil else Cons(Lift(l.head), LiftAll(l.tail))
  }

  function LiftFields(a: Assoc<Json>): Assoc<Js> {
    if a.End? then End else Entry(a.key, Lift(a.value), LiftFields(a.rest))
  }

  /** On JSON values all copies write the canonical text. */
  lemma {:induction false} CopiesAgree(v: Json)
    ensures CanonicalJs(Lift(v)) == Canonical(v)
    ensures StableStringify(Lift(v)) == Some(Canonical(v))
  {
    match v
    case JArr(l) => ElementsAgree(l);
    case JObj(f) => FieldsAgree(f);
    case _ =>
  }

  lemma {:induction false} ElementsAgree(l: List<Json>)
    ensures CanonicalJsAll(LiftAll(l)) == CanonicalAll(l) == StableAll(LiftAll(l))
  {
    if l.Cons? { CopiesAgree(l.head); ElementsAgree(l.tail); }
  }

  lemma {:induction false} FieldsAgree(a: Assoc<Json>)
    ensures CanonicalJsFields(LiftFields(a)) == CanonicalFields(a) == StableFields(LiftFields(a))
  {
    if a.Entry? { CopiesAgree(a.value); FieldsAgree(a.rest); }
  }

  // ----- exactly where they agree -----

  predicate HasUndefined(v: Js) {
    match v
    case JsUndefined => true
    case JsLeaf(_) => false
    case JsArr(l) => AnyUndefined(l)
    case JsObj(f) => AnyFieldUndefined(f)
  }

  predicate AnyUndefined(l: List<Js>) {
    l.Cons? && (HasUndefined(l.head) || AnyUndefined(l.tail))
  }

  predicate AnyFieldUndefined(a: Assoc<Js>) {
    a.Entry? && (HasUndefined(a.value) || AnyFieldUndefined(a.rest))
  }

  lemma {:induction false} AgreeWithout(v: Js)
    requires !HasUndefined(v)
    ensures StableStringify(v) == Some(CanonicalJs(v))
  {
    match v
    case JsLeaf(_) =>
    case JsArr(l) => ElementsAgreeWithout(l);
    case JsObj(f) => FieldsAgreeWithout(f);
  }

  lemma {:induction false} ElementsAgreeWithout(l: List<Js>)
    requires !AnyUndefined(l)
    ensures StableAll(l) == CanonicalJsAll(l)
  {
    if l.Cons? { AgreeWithout(l.head); ElementsAgreeWithout(l.tail); }
  }

  lemma {:induction false} FieldsAgreeWithout(a: Assoc<Js>)
    requires !AnyFieldUndefined(a)
    ensures StableFields(a) == CanonicalJsFields(a)
  {
    if a.Entry? { AgreeWithout(a.value); FieldsAgreeWithout(a.rest); }
  }

  // The other direction reads the two texts in lockstep: where they start alike, what was printed so
  // far held no undefined and what is left of them is alike too.

  ghost predicate Lockstep(v: Js) {
    v.JsUndefined?
    || forall r, r' :: StableStringify(v).value + r' == CanonicalJs(v) + r ==> !HasUndefined(v) && r == r'
  }

  ghost predicate AllLockstep(l: List<Js>) {
    l.Cons? ==> Lockstep(l.head) && AllLockstep(l.tail)
  }

  ghost predicate FieldsLockstep(a: Assoc<Js>) {
    a.Entry? ==> Lockstep(a.value) && FieldsLockstep(a.rest)
  }

  lemma Cancel(a: Text, x: Text, y: Text)
    requires a + x == a + y
    ensures x == y
  {
    assert x == (a + x)[|a|..] && y == (a + y)[|a|..];
  }

  /** Two bracketed texts that start alike, without their opening bracket. */
  lemma Opened(open: Text, x: Text, y: Text, close: Text, r: Text, r': Text)
    requires open + x + close + r' == open + y + close + r
    ensures x + (close + r') == y + (close + r)
  {
    Regroup(open, x, close, r');
    Regroup(open, y, close, r);
    Regroup(x, close, r', []);
    Regroup(y, close, r, []);
    Cancel(open, x + close + r', y + close + r);
  }

  /** Neither way of writing undefined starts like null. */
  lemma NotNull(x: Text, y: Text)
    ensures UNDEFINED_TEXT + x != NULL_TEXT + y
    ensures x != [] && x[0] != NULL_TEXT[0] ==> [] + x != NULL_TEXT + y
  {
    assert (UNDEFINED_TEXT + x)[0] != (NULL_TEXT + y)[0] == NULL_TEXT[0];
  }

  lemma {:induction false} ElementsInStep(l: List<Js>, r: Text, r': Text)
    requires AllLockstep(l) && [CLOSE_BRACKET] <= r && [CLOSE_BRACKET] <= r'
    requires Join(StableAll(l)) + r' == Join(CanonicalJsAll(l)) + r
    ensures !AnyUndefined(l) && r == r'
  {
    if l.Nil? {
      Cancel([], r, r');
    } else {
      var s, c := StableAll(l), CanonicalJsAll(l);
      var more := if l.tail.Nil? then r else [COMMA] + (Join(c.tail) + r);
      var more' := if l.tail.Nil? then r' else [COMMA] + (Join(s.tail) + r');
      HeadApart(c, r);
      HeadApart(s, r');
      assert s.head + more' == c.head + more;
      NotNull(more', more);
      if l.tail.Cons? {
        Cancel([COMMA], Join(s.tail) + r', Join(c.tail) + r);
        ElementsInStep(l.tail, r, r');
      }
    }
  }

  lemma HeadApart(parts: List<Text>, r: Text)
    requires parts.Cons?
    ensures Join(parts) + r == parts.head + if parts.tail.Nil? then r else [COMMA] + (Join(parts.tail) + r)
  {
    if parts.tail.Cons? {
      Regroup(parts.head, [COMMA], Join(parts.tail), r);
      Regroup([COMMA], Join(parts.tail), r, []);
    }
  }

  lemma {:induction false} FieldsInStep(a: Assoc<Js>, r: Text, r': Text)
    requires FieldsLockstep(a)
    requires Join(Members(StableFields(a))) + r' == Join(Members(CanonicalJsFields(a))) + r
    ensures !AnyFieldUndefined(a) && r == r'
  {
    if a.End? {
      Cancel([], r, r');
    } else {
      var s, c := StableFields(a), CanonicalJsFields(a);
      var more := if a.rest.End? then r else [COMMA] + (Join(Members(c.rest)) + r);
      var more' := if a.rest.End? then r' else [COMMA] + (Join(Members(s.rest)) + r');
      HeadApart(Members(c), r);
      HeadApart(Members(s), r');
      Regroup(Quote(a.key), [COLON], c.value, more);
      Regroup(Quote(a.key), [COLON], s.value, more');
      Cancel(Quote(a.key) + [COLON], s.value + more', c.value + more);
      NotNull(more', more);
      if a.rest.Entry? {
        Cancel([COMMA], Join(Members(s.rest)) + r', Join(Members(c.rest)) + r);
        FieldsInStep(a.rest, r, r');
      }
    }
  }

  function FieldText(v: Js): Text {
    var t := StableStringify(v);
    if t.None? then UNDEFINED_TEXT else t.value
  }

  lemma {:induction false} InsertField(k: Text, v: Js, a: Assoc<Js>)
    ensures StableFields(Insert(k, v, a)) == Insert(k, FieldText(v), StableFields(a))
    ensures CanonicalJsFields(Insert(k, v, a)) == Insert(k, CanonicalJs(v), CanonicalJsFields(a))
    ensures AnyFieldUndefined(Insert(k, v, a)) <==> HasUndefined(v) || AnyFieldUndefined(a)
    ensures Lockstep(v) && FieldsLockstep(a) ==> FieldsLockstep(Insert(k, v, a))
  {
    if a.Entry? && !Less(k, a.key) { InsertField(k, v, a.rest); }
  }

  /** Sorting entries and printing their values commute. */
  lemma {:induction false} SortFields(a: Assoc<Js>)
    ensures StableFields(Sort(a)) == Sort(StableFields(a))
    ensures CanonicalJsFields(Sort(a)) == Sort(CanonicalJsFields(a))
    ensures AnyFieldUndefined(Sort(a)) <==> AnyFieldUndefined(a)
    ensures FieldsLockstep(a) ==> FieldsLockstep(Sort(a))
  {
    if a.Entry? {
      SortFields(a.rest);
      InsertField(a.key, a.value, Sort(a.rest));
    }
  }

  lemma {:induction false} ValuesInStep(v: Js)
    ensures Lockstep(v)
  {
    match v
    case JsUndefined =>
    case JsLeaf(leaf) =>
      forall r, r' | StableStringify(v).value + r' == CanonicalJs(v) + r ensures r == r' {
        Cancel(Canonical(leaf), r, r');
      }
    case JsArr(l) =>
      AllInStep(l);
      forall r, r' | StableStringify(v).value + r' == CanonicalJs(v) + r ensures !AnyUndefined(l) && r == r' {
        Opened([OPEN_BRACKET], Join(StableAll(l)), Join(CanonicalJsAll(l)), [CLOSE_BRACKET], r, r');
        ElementsInStep(l, [CLOSE_BRACKET] + r, [CLOSE_BRACKET] + r');
        Cancel([CLOSE_BRACKET], r, r');
      }
    case JsObj(f) =>
      AllFieldsInStep(f);
      SortFields(f);
      var s, c := Members(Sort(StableFields(f))), Members(Sort(CanonicalJsFields(f)));
      forall r, r' | StableStringify(v).value + r' == CanonicalJs(v) + r ensures !AnyFieldUndefined(f) && r == r' {
        Opened([OPEN_BRACE], Join(s), Join(c), [CLOSE_BRACE], r, r');
        FieldsInStep(Sort(f), [CLOSE_BRACE] + r, [CLOSE_BRACE] + r');
        Cancel([CLOSE_BRACE], r, r');
      }
  }

  lemma {:induction false} AllInStep(l: List<Js>)
    ensures AllLockstep(l)
  {
    if l.Cons? { ValuesInStep(l.head); AllInStep(l.tail); }
  }

  lemma {:induction false} AllFieldsInStep(a: Assoc<Js>)
    ensures FieldsLockstep(a)
  {
    if a.Entry? { ValuesInStep(a.value); AllFieldsInStep(a.rest); }
  }

  /** The backup copy writes the canonical text exactly for the values that hold no undefined, at any
      depth: no two differences ever cancel out. */
  lemma CopiesAgreeExactlyWhen(v: Js)
    ensures StableStringify(v) == Some(CanonicalJs(v)) <==> !HasUndefined(v)
  {
    if !HasUndefined(v) {
      AgreeWithout(v);
    } else if StableStringify(v) == Some(CanonicalJs(v)) {
      ValuesInStep(v);
      assert StableStringify(v).value + [] == CanonicalJs(v) + [];
    }
  }
}
