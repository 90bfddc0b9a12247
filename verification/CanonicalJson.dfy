/**
 The canonical JSON printer behind request hashes, task locks, drift detection and backup
 fingerprints: its text determines the value up to the order of object keys.
 */
module CanonicalJson {
  import opened Wrappers
  import opened JsonText

  // ----- the printer -----

  /** `parts.join(',')` */
  function Join(parts: List<Text>): Text {
    match parts
    case Nil => []
    case Cons(t, Nil) => t
    case Cons(t, more) => t + [COMMA] + Join(more)
  }

  function Member(key: Text, text: Text): Text {
    Quote(key) + [COLON] + text
  }

  function Members(a: Assoc<Text>): List<Text> {
    if a.End? then Nil else Cons(Member(a.key, a.value), Members(a.rest))
  }

  function Canonical(v: Json): Text {
    match v
    case JNull => NULL_TEXT
    case JBool(b) => if b then TRUE_TEXT else FALSE_TEXT
    case JNum(lexeme) => lexeme
    case JStr(s) => Quote(s)
    case JArr(elems) => [OPEN_BRACKET] + Join(CanonicalAll(elems)) + [CLOSE_BRACKET]
    case JObj(fields) => [OPEN_BRACE] + Join(Members(Sort(CanonicalFields(fields)))) + [CLOSE_BRACE]
  }

  function CanonicalAll(l: List<Json>): List<Text> {
    if l.Nil? then Nil else Cons(Canonical(l.head), CanonicalAll(l.tail))
  }

  function CanonicalFields(a: Assoc<Json>): Assoc<Text> {
    if a.End? then End else Entry(a.key, Canonical(a.value), CanonicalFields(a.rest))
  }

  // ----- values -----

  /** A JSON value: object keys are distinct and numbers are number lexemes. */
  ghost predicate Valid(v: Json) {
    match v
    case JNum(lexeme) => ValidLexeme(lexeme)
    case JArr(elems) => ValidAll(elems)
    case JObj(fields) => Distinct(fields) && ValidFields(fields)
    case _ => true
  }

  ghost predicate ValidAll(l: List<Json>) {
    l.Cons? ==> Valid(l.head) && ValidAll(l.tail)
  }

  ghost predicate ValidFields(a: Assoc<Json>) {
    a.Entry? ==> Valid(a.value) && ValidFields(a.rest)
  }

  /** `value[k]`, remembering that a member is smaller than its object. */
  ghost function Field(a: Assoc<Json>, k: Text): (v: Json)
    requires k in Keys(a)
    ensures v == Get(a, k)
    ensures v < a
  {
    if a.key == k then a.value else Field(a.rest, k)
  }

  /** Equal up to the order in which objects list their keys. */
  ghost predicate Same(v: Json, w: Json)
    decreases v
  {
    match (v, w)
    case (JArr(l), JArr(m)) => SameAll(l, m)
    case (JObj(f), JObj(g)) =>
      Keys(f) == Keys(g) && forall k | k in Keys(f) :: Same(Field(f, k), Field(g, k))
    case _ => v == w && !v.JArr? && !v.JObj?
  }

  ghost predicate SameAll(l: List<Json>, m: List<Json>)
    decreases l
  {
    if l.Nil? then m.Nil? else m.Cons? && Same(l.head, m.head) && SameAll(l.tail, m.tail)
  }

  // ----- normal forms -----

  /** The value with every object's entries in key order. */
  function Normal(v: Json): Json {
    match v
    case JArr(elems) => JArr(NormalAll(elems))
    case JObj(fields) => JObj(Sort(NormalFields(fields)))
    case _ => v
  }

  function NormalAll(l: List<Json>): List<Json> {
    if l.Nil? then Nil else Cons(Normal(l.head), NormalAll(l.tail))
  }

  function NormalFields(a: Assoc<Json>): Assoc<Json> {
    if a.End? then End else Entry(a.key, Normal(a.value), NormalFields(a.rest))
  }

  lemma {:induction false} NormalFieldsFacts(a: Assoc<Json>)
    ensures Keys(NormalFields(a)) == Keys(a)
    ensures Distinct(a) ==> Distinct(NormalFields(a))
    ensures forall k | k in Keys(a) :: Get(NormalFields(a), k) == Normal(Get(a, k))
  {
    if a.Entry? { NormalFieldsFacts(a.rest); }
  }

  lemma ValidField(a: Assoc<Json>, k: Text)
    requires ValidFields(a) && k in Keys(a)
    ensures Valid(Field(a, k))
  {
    if a.key != k { ValidField(a.rest, k); }
  }

  /** Two values have the same normal form exactly when they are the same up to key order. */
  lemma {:induction false} NormalFormDecides(v: Json, w: Json)
    requires Valid(v) && Valid(w)
    ensures Normal(v) == Normal(w) <==> Same(v, w)
    decreases v
  {
    match (v, w)
    case (JArr(l), JArr(m)) => NormalAllDecides(l, m);
    case (JObj(f), JObj(g)) =>
      NormalFieldsFacts(f);
      NormalFieldsFacts(g);
      SortFacts(NormalFields(f));
      SortFacts(NormalFields(g));
      forall k | k in Keys(f) && k in Keys(g)
        ensures Same(Field(f, k), Field(g, k)) <==> Get(Sort(NormalFields(f)), k) == Get(Sort(NormalFields(g)), k)
      {
        ValidField(f, k);
        ValidField(g, k);
        NormalFormDecides(Field(f, k), Field(g, k));
      }
      if Same(v, w) {
        SortedUnique(Sort(NormalFields(f)), Sort(NormalFields(g)));
      }
    case _ =>
  }

  lemma {:induction false} NormalAllDecides(l: List<Json>, m: List<Json>)
    requires ValidAll(l) && ValidAll(m)
    ensures NormalAll(l) == NormalAll(m) <==> SameAll(l, m)
    decreases l
  {
    if l.Cons? && m.Cons? {
      NormalFormDecides(l.head, m.head);
      NormalAllDecides(l.tail, m.tail);
    }
  }

  // ----- printing in the order given -----

  function Print(v: Json): Text {
    match v
    case JNull => NULL_TEXT
    case JBool(b) => if b then TRUE_TEXT else FALSE_TEXT
    case JNum(lexeme) => lexeme
    case JStr(s) => Quote(s)
    case JArr(elems) => [OPEN_BRACKET] + PrintAll(elems) + [CLOSE_BRACKET]
    case JObj(fields) => [OPEN_BRACE] + PrintFields(fields) + [CLOSE_BRACE]
  }

  function PrintAll(l: List<Json>): Text {
    if l.Nil? then []
    else if l.tail.Nil? then Print(l.head)
    else Print(l.head) + [COMMA] + PrintAll(l.tail)
  }

  function PrintFields(a: Assoc<Json>): Text {
    if a.End? then []
    else if a.rest.End? then Member(a.key, Print(a.value))
    else Member(a.key, Print(a.value)) + [COMMA] + PrintFields(a.rest)
  }

  function Texts(a: Assoc<Json>): Assoc<Text> {
    if a.End? then End else Entry(a.key, Print(a.value), Texts(a.rest))
  }

  lemma {:induction false} TextsJoin(a: Assoc<Json>)
    ensures Join(Members(Texts(a))) == PrintFields(a)
  {
    if a.Entry? { TextsJoin(a.rest); }
  }

  lemma {:induction false} TextsInsert(k: Text, v: Json, a: Assoc<Json>)
    ensures Texts(Insert(k, v, a)) == Insert(k, Print(v), Texts(a))
  {
    if a.Entry? && !Less(k, a.key) { TextsInsert(k, v, a.rest); }
  }

  lemma {:induction false} TextsSort(a: Assoc<Json>)
    ensures Texts(Sort(a)) == Sort(Texts(a))
  {
    if a.Entry? {
      TextsSort(a.rest);
      TextsInsert(a.key, a.value, Sort(a.rest));
    }
  }

  /** The canonical text is the plain text of the normal form. */
  lemma {:induction false} CanonicalPrintsNormal(v: Json)
    ensures Canonical(v) == Print(Normal(v))
  {
    match v
    case JArr(l) => CanonicalAllPrints(l);
    case JObj(f) =>
      CanonicalFieldsPrints(f);
      TextsSort(NormalFields(f));
      TextsJoin(Sort(NormalFields(f)));
    case _ =>
  }

  lemma {:induction false} CanonicalAllPrints(l: List<Json>)
    ensures Join(CanonicalAll(l)) == PrintAll(NormalAll(l))
  {
    if l.Cons? {
      CanonicalPrintsNormal(l.head);
      CanonicalAllPrints(l.tail);
    }
  }

  lemma {:induction false} CanonicalFieldsPrints(a: Assoc<Json>)
    ensures CanonicalFields(a) == Texts(NormalFields(a))
  {
    if a.Entry? {
      CanonicalPrintsNormal(a.value);
      CanonicalFieldsPrints(a.rest);
    }
  }

  // ----- a parser that inverts Print -----

  /** Reads one value and returns it with the unread text. */
  function Parse(t: Text): (r: Option<(Json, Text)>)
    ensures r.Some? ==> |r.value.1| < |t|
    decreases |t|, 0
  {
    if t == [] then None
    else if t[0] == QUOTE then
      var r := ParseBody(t[1..]);
      if r.None? then None else Some((JStr(r.value.0), r.value.1))
    else if t[0] == OPEN_BRACKET then
      if |t| > 1 && t[1] == CLOSE_BRACKET then Some((JArr(Nil), t[2..]))
      else
        var r := ParseElems(t[1..]);
        if r.None? then None else Some((JArr(r.value.0), r.value.1))
    else if t[0] == OPEN_BRACE then
      if |t| > 1 && t[1] == CLOSE_BRACE then Some((JObj(End), t[2..]))
      else
        var r := ParseFields(t[1..]);
        if r.None? then None else Some((JObj(r.value.0), r.value.1))
    else if NULL_TEXT <= t then Some((JNull, t[4..]))
    else if TRUE_TEXT <= t then Some((JBool(true), t[4..]))
    else if FALSE_TEXT <= t then Some((JBool(false), t[5..]))
    else
      var n := NumSpan(t);
      if n == 0 then None else Some((JNum(t[..n]), t[n..]))
  }

  /** Reads `value , value ... ]`. */
  function ParseElems(t: Text): (r: Option<(List<Json>, Text)>)
    ensures r.Some? ==> |r.value.1| < |t|
    decreases |t|, 1
  {
    var v := Parse(t);
    if v.None? || v.value.1 == [] then None
    else if v.value.1[0] == CLOSE_BRACKET then Some((Cons(v.value.0, Nil), v.value.1[1..]))
    else if v.value.1[0] != COMMA then None
    else
      var r := ParseElems(v.value.1[1..]);
      if r.None? then None else Some((Cons(v.value.0, r.value.0), r.value.1))
  }

  /** Reads `"key" : value , ... }`. */
  function ParseFields(t: Text): (r: Option<(Assoc<Json>, Text)>)
    ensures r.Some? ==> |r.value.1| < |t|
    decreases |t|, 1
  {
    if t == [] || t[0] != QUOTE then None
    else
      var k := ParseBody(t[1..]);
      if k.None? || k.value.1 == [] || k.value.1[0] != COLON then None
      else
        var v := Parse(k.value.1[1..]);
        if v.None? || v.value.1 == [] then None
        else if v.value.1[0] == CLOSE_BRACE then Some((Entry(k.value.0, v.value.0, End), v.value.1[1..]))
        else if v.value.1[0] != COMMA then None
        else
          var r := ParseFields(v.value.1[1..]);
          if r.None? then None else Some((Entry(k.value.0, v.value.0, r.value.0), r.value.1))
  }

  /** Text that may follow a value: nothing that would extend a number. */
  predicate Delimited(rest: Text) {
    rest == [] || !IsNumUnit(rest[0])
  }

  /** The first character of a printed value, which tells the parser what follows. */
  lemma PrintStarts(v: Json)
    requires Valid(v)
    ensures Print(v) != []
    ensures Print(v)[0] != CLOSE_BRACKET && Print(v)[0] != CLOSE_BRACE
  {
  }

  lemma Regroup(a: Text, b: Text, c: Text, d: Text)
    ensures a + b + c + d == a + (b + c + d)
    ensures a + b + c == a + (b + c)
    ensures a + b + c + d == a + b + (c + d)
  {
  }

  lemma Behind(u: Unit, t: Text)
    ensures ([u] + t)[0] == u && ([u] + t)[1..] == t
  {
  }

  lemma ParseString(s: Text, rest: Text)
    ensures Parse(Quote(s) + rest) == Some((JStr(s), rest))
  {
    BodyRoundTrip(s, false, rest);
    Regroup([QUOTE], StringBody(s, false), [QUOTE], rest);
    Behind(QUOTE, StringBody(s, false) + [QUOTE] + rest);
  }

  lemma ParseNumber(lexeme: Text, rest: Text)
    requires ValidLexeme(lexeme) && Delimited(rest)
    ensures Parse(lexeme + rest) == Some((JNum(lexeme), rest))
  {
    var t := lexeme + rest;
    SpanOf(lexeme, rest);
    assert t[0] == lexeme[0] && t[..|lexeme|] == lexeme && t[|lexeme|..] == rest;
  }

  lemma ParseLiteral(v: Json, rest: Text)
    requires v.JNull? || v.JBool?
    ensures Parse(Print(v) + rest) == Some((v, rest))
  {
    var t := Print(v) + rest;
    assert t[..|Print(v)|] == Print(v) && t[|Print(v)|..] == rest && t[0] == Print(v)[0];
  }

  lemma {:induction false} PrintRoundTrip(v: Json, rest: Text)
    requires Valid(v) && Delimited(rest)
    ensures Parse(Print(v) + rest) == Some((v, rest))
    decreases v
  {
    match v
    case JNull => ParseLiteral(v, rest);
    case JBool(_) => ParseLiteral(v, rest);
    case JNum(lexeme) => ParseNumber(lexeme, rest);
    case JStr(s) => ParseString(s, rest);
    case JArr(l) => ArrayRoundTrip(l, rest);
    case JObj(f) => ObjectRoundTrip(f, rest);
  }

  lemma {:induction false} ArrayRoundTrip(l: List<Json>, rest: Text)
    requires ValidAll(l)
    ensures Parse(Print(JArr(l)) + rest) == Some((JArr(l), rest))
    decreases l, 1
  {
    var more := PrintAll(l) + [CLOSE_BRACKET] + rest;
    Regroup([OPEN_BRACKET], PrintAll(l), [CLOSE_BRACKET], rest);
    Behind(OPEN_BRACKET, more);
    if l.Nil? {
      assert more == [CLOSE_BRACKET] + rest;
      assert ([OPEN_BRACKET] + more)[2..] == rest;
    } else {
      ElemsRoundTrip(l, rest);
      PrintStarts(l.head);
      assert more[0] == Print(l.head)[0];
    }
  }

  lemma {:induction false} ObjectRoundTrip(a: Assoc<Json>, rest: Text)
    requires ValidFields(a)
    ensures Parse(Print(JObj(a)) + rest) == Some((JObj(a), rest))
    decreases a, 1
  {
    var more := PrintFields(a) + [CLOSE_BRACE] + rest;
    Regroup([OPEN_BRACE], PrintFields(a), [CLOSE_BRACE], rest);
    Behind(OPEN_BRACE, more);
    if a.End? {
      assert more == [CLOSE_BRACE] + rest;
      assert ([OPEN_BRACE] + more)[2..] == rest;
    } else {
      FieldsRoundTrip(a, rest);
      assert more[0] == QUOTE;
    }
  }

  lemma {:induction false} ElemsRoundTrip(l: List<Json>, rest: Text)
    requires l.Cons? && ValidAll(l)
    ensures ParseElems(PrintAll(l) + [CLOSE_BRACKET] + rest) == Some((l, rest))
    decreases l, 0
  {
    var more := PrintAll(l.tail) + [CLOSE_BRACKET] + rest;
    var tail := if l.tail.Nil? then [CLOSE_BRACKET] + rest else [COMMA] + more;
    assert PrintAll(l) + [CLOSE_BRACKET] + rest == Print(l.head) + tail by {
      if l.tail.Nil? {
        Regroup(Print(l.head), [CLOSE_BRACKET], rest, []);
      } else {
        Regroup(Print(l.head) + [COMMA], PrintAll(l.tail), [CLOSE_BRACKET], rest);
        Regroup(Print(l.head), [COMMA], more, []);
      }
    }
    PrintRoundTrip(l.head, tail);
    if l.tail.Nil? {
      Behind(CLOSE_BRACKET, rest);
    } else {
      Behind(COMMA, more);
      ElemsRoundTrip(l.tail, rest);
    }
  }

  /** One `"key":value` and what the parser makes of it. */
  lemma ParseMember(k: Text, v: Json, more: Text)
    requires Parse(Print(v) + more) == Some((v, more)) && more != []
    requires more[0] == CLOSE_BRACE || (more[0] == COMMA && ParseFields(more[1..]).Some?)
    ensures ParseFields(Member(k, Print(v)) + more) ==
      if more[0] == CLOSE_BRACE then Some((Entry(k, v, End), more[1..]))
      else Some((Entry(k, v, ParseFields(more[1..]).value.0), ParseFields(more[1..]).value.1))
  {
    var valueText := [COLON] + (Print(v) + more);
    var t := Member(k, Print(v)) + more;
    Regroup(Quote(k), [COLON], Print(v), more);
    assert t == Quote(k) + valueText by { Regroup(Quote(k), [COLON], Print(v) + more, []); }
    Regroup([QUOTE], StringBody(k, false), [QUOTE], valueText);
    Behind(QUOTE, StringBody(k, false) + [QUOTE] + valueText);
    BodyRoundTrip(k, false, valueText);
    Behind(COLON, Print(v) + more);
  }

  lemma {:induction false} FieldsRoundTrip(a: Assoc<Json>, rest: Text)
    requires a.Entry? && ValidFields(a)
    ensures ParseFields(PrintFields(a) + [CLOSE_BRACE] + rest) == Some((a, rest))
    decreases a, 0
  {
    var more := PrintFields(a.rest) + [CLOSE_BRACE] + rest;
    var tail := if a.rest.End? then [CLOSE_BRACE] + rest else [COMMA] + more;
    var first := Member(a.key, Print(a.value));
    assert PrintFields(a) + [CLOSE_BRACE] + rest == first + tail by {
      if a.rest.End? {
        Regroup(first, [CLOSE_BRACE], rest, []);
      } else {
        Regroup(first + [COMMA], PrintFields(a.rest), [CLOSE_BRACE], rest);
        Regroup(first, [COMMA], more, []);
      }
    }
    PrintRoundTrip(a.value, tail);
    if a.rest.End? {
      Behind(CLOSE_BRACE, rest);
    } else {
      Behind(COMMA, more);
      FieldsRoundTrip(a.rest, rest);
    }
    ParseMember(a.key, a.value, tail);
  }

  // ----- main results -----

  lemma {:induction false} NormalValid(v: Json)
    requires Valid(v)
    ensures Valid(Normal(v))
  {
    match v
    case JArr(l) => NormalAllValid(l);
    case JObj(f) =>
      NormalFieldsFacts(f);
      NormalFieldsValid(f);
      SortFacts(NormalFields(f));
      SortedDistinct(Sort(NormalFields(f)));
      SortValid(NormalFields(f));
    case _ =>
  }

  lemma {:induction false} NormalAllValid(l: List<Json>)
    requires ValidAll(l)
    ensures ValidAll(NormalAll(l))
  {
    if l.Cons? { NormalValid(l.head); NormalAllValid(l.tail); }
  }

  lemma {:induction false} NormalFieldsValid(a: Assoc<Json>)
    requires ValidFields(a)
    ensures ValidFields(NormalFields(a))
  {
    if a.Entry? { NormalValid(a.value); NormalFieldsValid(a.rest); }
  }

  lemma {:induction false} SortedDistinct<T>(a: Assoc<T>)
    requires Sorted(a)
    ensures Distinct(a)
  {
    if a.Entry? { SortedHead(a); SortedDistinct(a.rest); }
  }

  lemma {:induction false} InsertValid(k: Text, v: Json, a: Assoc<Json>)
    requires Valid(v) && ValidFields(a)
    ensures ValidFields(Insert(k, v, a))
  {
    if a.Entry? && !Less(k, a.key) { InsertValid(k, v, a.rest); }
  }

  lemma {:induction false} SortValid(a: Assoc<Json>)
    requires ValidFields(a)
    ensures ValidFields(Sort(a))
  {
    if a.Entry? { SortValid(a.rest); InsertValid(a.key, a.value, Sort(a.rest)); }
  }

  /** Parsing the canonical text gives back the value in key order, and nothing is left over. */
  lemma ParseInvertsCanonical(v: Json)
    requires Valid(v)
    ensures Parse(Canonical(v)) == Some((Normal(v), []))
    ensures Same(v, Normal(v))
  {
    CanonicalPrintsNormal(v);
    NormalValid(v);
    PrintRoundTrip(Normal(v), []);
    assert Print(Normal(v)) + [] == Print(Normal(v));
    NormalIdempotent(v);
    NormalFormDecides(v, Normal(v));
  }

  lemma {:induction false} NormalIdempotent(v: Json)
    requires Valid(v)
    ensures Normal(Normal(v)) == Normal(v)
  {
    match v
    case JArr(l) => NormalAllIdempotent(l);
    case JObj(f) =>
      var g := NormalFields(f);
      NormalFieldsFacts(f);
      SortFacts(g);
      SortedDistinct(Sort(g));
      NormalFieldsFacts(Sort(g));
      SortFacts(NormalFields(Sort(g)));
      forall k | k in Keys(Sort(g)) ensures Get(Sort(NormalFields(Sort(g))), k) == Get(Sort(g), k) {
        ValidField(f, k);
        NormalIdempotent(Field(f, k));
      }
      SortedUnique(Sort(NormalFields(Sort(g))), Sort(g));
    case _ =>
  }

  lemma {:induction false} NormalAllIdempotent(l: List<Json>)
    requires ValidAll(l)
    ensures NormalAll(NormalAll(l)) == NormalAll(l)
  {
    if l.Cons? { NormalIdempotent(l.head); NormalAllIdempotent(l.tail); }
  }

  /** Two values have the same canonical text exactly when they are equal up to key order. */
  lemma CanonicalDecides(v: Json, w: Json)
    requires Valid(v) && Valid(w)
    ensures Canonical(v) == Canonical(w) <==> Same(v, w)
  {
    ParseInvertsCanonical(v);
    ParseInvertsCanonical(w);
    CanonicalPrintsNormal(v);
    CanonicalPrintsNormal(w);
    NormalFormDecides(v, w);
  }
}
