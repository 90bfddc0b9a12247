/**
 JSON values, text as UTF-16 code units, and the string literals JSON.stringify writes
 (section 7 of RFC 8259), with the parser that inverts them.
 */
module JsonText {
  import opened Wrappers

  type Unit = n: nat | n < 0x10000
  type Text = seq<Unit>

  const QUOTE: Unit := 0x22
  const BACKSLASH: Unit := 0x5c
  const COMMA: Unit := 0x2c
  const COLON: Unit := 0x3a
  const OPEN_BRACKET: Unit := 0x5b
  const CLOSE_BRACKET: Unit := 0x5d
  const OPEN_BRACE: Unit := 0x7b
  const CLOSE_BRACE: Unit := 0x7d
  const NULL_TEXT: Text := [0x6e, 0x75, 0x6c, 0x6c]
  const TRUE_TEXT: Text := [0x74, 0x72, 0x75, 0x65]
  const FALSE_TEXT: Text := [0x66, 0x61, 0x6c, 0x73, 0x65]

  /** An object's entries in insertion order. */
  datatype Assoc<T> = End | Entry(key: Text, value: T, rest: Assoc<T>)

  datatype List<T> = Nil | Cons(head: T, tail: List<T>)

  datatype Json =
    | JNull
    | JBool(b: bool)
    | JNum(lexeme: Text)
    | JStr(s: Text)
    | JArr(elems: List<Json>)
    | JObj(fields: Assoc<Json>)

  // ----- string literals -----

  predicate IsHigh(u: Unit) { 0xd800 <= u < 0xdc00 }
  predicate IsLow(u: Unit) { 0xdc00 <= u < 0xe000 }

  function HexDigit(d: nat): Unit
    requires d < 16
  {
    if d < 10 then 0x30 + d else 0x61 + (d - 10)
  }

  function HexValue(u: Unit): (d: Option<nat>)
    ensures d.Some? ==> d.value < 16
  {
    if 0x30 <= u <= 0x39 then Some(u - 0x30)
    else if 0x61 <= u <= 0x66 then Some(u - 0x61 + 10)
    else None
  }

  function Hex4(u: Unit): (t: Text)
    ensures |t| == 4
  {
    [HexDigit(u / 4096), HexDigit(u / 256 % 16), HexDigit(u / 16 % 16), HexDigit(u % 16)]
  }

  function Unhex4(t: Text): Option<Unit>
    requires |t| == 4
  {
    var a, b, c, d := HexValue(t[0]), HexValue(t[1]), HexValue(t[2]), HexValue(t[3]);
    if a.None? || b.None? || c.None? || d.None? then None
    else Some(a.value * 4096 + b.value * 256 + c.value * 16 + d.value)
  }

  lemma HexDigitRoundTrip(d: nat)
    requires d < 16
    ensures HexValue(HexDigit(d)) == Some(d)
  {
  }

  lemma Nibbles(u: Unit)
    ensures u / 4096 < 16
    ensures u == u / 4096 * 4096 + u / 256 % 16 * 256 + u / 16 % 16 * 16 + u % 16
  {
    var q, r := u / 16, u / 256;
    assert q / 16 == r && r / 16 == u / 4096;
    assert u == q * 16 + u % 16 && q == r * 16 + q % 16 && r == u / 4096 * 16 + r % 16;
  }

  lemma HexRoundTrip(u: Unit)
    ensures Unhex4(Hex4(u)) == Some(u)
  {
    Nibbles(u);
    HexDigitRoundTrip(u / 4096);
    HexDigitRoundTrip(u / 256 % 16);
    HexDigitRoundTrip(u / 16 % 16);
    HexDigitRoundTrip(u % 16);
  }

  /** The letter of a two-character escape, if the unit has one. */
  function ShortEscape(u: Unit): Option<Unit> {
    if u == QUOTE then Some(QUOTE)
    else if u == BACKSLASH then Some(BACKSLASH)
    else if u == 0x08 then Some(0x62)
    else if u == 0x0c then Some(0x66)
    else if u == 0x0a then Some(0x6e)
    else if u == 0x0d then Some(0x72)
    else if u == 0x09 then Some(0x74)
    else None
  }

  function ShortUnescape(letter: Unit): Option<Unit> {
    if letter == QUOTE then Some(QUOTE)
    else if letter == BACKSLASH then Some(BACKSLASH)
    else if letter == 0x62 then Some(0x08)
    else if letter == 0x66 then Some(0x0c)
    else if letter == 0x6e then Some(0x0a)
    else if letter == 0x72 then Some(0x0d)
    else if letter == 0x74 then Some(0x09)
    else None
  }

  /** `paired` says that a surrogate stands next to its partner and is written raw. */
  function EscapeUnit(u: Unit, paired: bool): (t: Text)
    ensures t != []
  {
    if ShortEscape(u).Some? then [BACKSLASH, ShortEscape(u).value]
    else if u < 0x20 || ((IsHigh(u) || IsLow(u)) && !paired) then [BACKSLASH, 0x75] + Hex4(u)
    else [u]
  }

  /** The characters between the quotes; `afterHigh` is set behind a high surrogate written raw. */
  function StringBody(s: Text, afterHigh: bool): Text {
    if s == [] then []
    else
      var opensPair := IsHigh(s[0]) && |s| > 1 && IsLow(s[1]);
      EscapeUnit(s[0], opensPair || (IsLow(s[0]) && afterHigh)) + StringBody(s[1..], opensPair)
  }

  function Quote(s: Text): Text {
    [QUOTE] + StringBody(s, false) + [QUOTE]
  }

  /** Reads up to the closing quote. */
  function ParseBody(t: Text): (r: Option<(Text, Text)>)
    ensures r.Some? ==> |r.value.1| < |t|
    decreases |t|
  {
    if t == [] then None
    else if t[0] == QUOTE then Some(([], t[1..]))
    else if t[0] != BACKSLASH then
      var r := ParseBody(t[1..]);
      if r.None? then None else Some(([t[0]] + r.value.0, r.value.1))
    else if |t| >= 6 && t[1] == 0x75 then
      var u := Unhex4(t[2..6]);
      var r := ParseBody(t[6..]);
      if u.None? || r.None? then None else Some(([u.value] + r.value.0, r.value.1))
    else if |t| >= 2 && ShortUnescape(t[1]).Some? then
      var r := ParseBody(t[2..]);
      if r.None? then None else Some(([ShortUnescape(t[1]).value] + r.value.0, r.value.1))
    else None
  }

  lemma ParseEscaped(u: Unit, paired: bool, more: Text)
    requires ParseBody(more).Some?
    ensures ParseBody(EscapeUnit(u, paired) + more) == Some(([u] + ParseBody(more).value.0, ParseBody(more).value.1))
  {
    var t := EscapeUnit(u, paired) + more;
    if ShortEscape(u).Some? {
      assert t[2..] == more;
    } else if u < 0x20 || ((IsHigh(u) || IsLow(u)) && !paired) {
      HexRoundTrip(u);
      assert t[2..6] == Hex4(u) && t[6..] == more;
    } else {
      assert t[1..] == more;
    }
  }

  predicate OpensPair(s: Text) {
    |s| > 1 && IsHigh(s[0]) && IsLow(s[1])
  }

  lemma BodyUnfolds(s: Text, afterHigh: bool, tail: Text)
    requires s != []
    ensures StringBody(s, afterHigh) + tail
         == EscapeUnit(s[0], OpensPair(s) || (IsLow(s[0]) && afterHigh)) + (StringBody(s[1..], OpensPair(s)) + tail)
  {
  }

  lemma {:induction false} TailRoundTrip(s: Text, afterHigh: bool, tail: Text, rest: Text)
    requires tail == [QUOTE] + rest
    ensures ParseBody(StringBody(s, afterHigh) + tail) == Some((s, rest))
    decreases |s|
  {
    if s == [] {
      assert StringBody(s, afterHigh) + tail == tail;
      assert tail[1..] == rest;
    } else {
      TailRoundTrip(s[1..], OpensPair(s), tail, rest);
      BodyUnfolds(s, afterHigh, tail);
      ParseEscaped(s[0], OpensPair(s) || (IsLow(s[0]) && afterHigh), StringBody(s[1..], OpensPair(s)) + tail);
      assert [s[0]] + s[1..] == s;
    }
  }

  lemma BodyRoundTrip(s: Text, afterHigh: bool, rest: Text)
    ensures ParseBody(StringBody(s, afterHigh) + [QUOTE] + rest) == Some((s, rest))
  {
    TailRoundTrip(s, afterHigh, [QUOTE] + rest, rest);
    assert StringBody(s, afterHigh) + [QUOTE] + rest == StringBody(s, afterHigh) + ([QUOTE] + rest);
  }

  // ----- numbers -----

  predicate IsNumUnit(u: Unit) {
    0x30 <= u <= 0x39 || u == 0x2b || u == 0x2d || u == 0x2e || u == 0x65 || u == 0x45
  }

  /** A lexeme JSON.stringify can write for a number: it starts with a digit or a minus sign. */
  predicate ValidLexeme(t: Text) {
    && t != [] && (0x30 <= t[0] <= 0x39 || t[0] == 0x2d)
    && forall i | 0 <= i < |t| :: IsNumUnit(t[i])
  }

  /** The longest prefix of number characters. */
  function NumSpan(t: Text): (n: nat)
    ensures n <= |t| && (forall i | 0 <= i < n :: IsNumUnit(t[i])) && (n < |t| ==> !IsNumUnit(t[n]))
  {
    if t == [] || !IsNumUnit(t[0]) then 0 else 1 + NumSpan(t[1..])
  }

  lemma SpanOf(t: Text, rest: Text)
    requires forall i | 0 <= i < |t| :: IsNumUnit(t[i])
    requires rest == [] || !IsNumUnit(rest[0])
    ensures NumSpan(t + rest) == |t|
  {
    assert forall i | 0 <= i < |t| :: (t + rest)[i] == t[i];
    assert rest != [] ==> (t + rest)[|t|] == rest[0];
  }

  // ----- association lists -----

  ghost function Keys<T>(a: Assoc<T>): (ks: set<Text>)
    ensures ks == {} <==> a.End?
  {
    if a.End? then {} else {a.key} + Keys(a.rest)
  }

  ghost predicate Distinct<T>(a: Assoc<T>) {
    a.Entry? ==> a.key !in Keys(a.rest) && Distinct(a.rest)
  }

  /** `value[k]` */
  ghost function Get<T>(a: Assoc<T>, k: Text): T
    requires k in Keys(a)
  {
    if a.key == k then a.value else Get(a.rest, k)
  }

  /** Order of Array.prototype.sort on strings: by code units. */
  predicate Less(a: Text, b: Text) {
    b != [] && (a == [] || a[0] < b[0] || (a[0] == b[0] && Less(a[1..], b[1..])))
  }

  lemma {:induction false} LessTotal(a: Text, b: Text)
    ensures (if Less(a, b) then 1 else 0) + (if Less(b, a) then 1 else 0) + (if a == b then 1 else 0) == 1
    decreases |a|
  {
    if a != [] && b != [] {
      LessTotal(a[1..], b[1..]);
      assert a == [a[0]] + a[1..] && b == [b[0]] + b[1..];
    }
  }

  lemma {:induction false} LessTransitive(a: Text, b: Text, c: Text)
    requires Less(a, b) && Less(b, c)
    ensures Less(a, c)
    decreases |a|
  {
    if a != [] && a[0] == b[0] == c[0] { LessTransitive(a[1..], b[1..], c[1..]); }
  }

  function Insert<T>(k: Text, v: T, a: Assoc<T>): Assoc<T> {
    if a.End? || Less(k, a.key) then Entry(k, v, a) else Entry(a.key, a.value, Insert(k, v, a.rest))
  }

  /** Entries in the order of the sorted keys. */
  function Sort<T>(a: Assoc<T>): Assoc<T> {
    if a.End? then End else Insert(a.key, a.value, Sort(a.rest))
  }

  ghost predicate Sorted<T>(a: Assoc<T>) {
    a.Entry? ==> (forall k | k in Keys(a.rest) :: Less(a.key, k)) && Sorted(a.rest)
  }

  lemma {:induction false} InsertFacts<T>(k: Text, v: T, a: Assoc<T>)
    requires Sorted(a) && k !in Keys(a)
    ensures Sorted(Insert(k, v, a)) && Keys(Insert(k, v, a)) == Keys(a) + {k}
    ensures Get(Insert(k, v, a), k) == v
    ensures forall j | j in Keys(a) :: Get(Insert(k, v, a), j) == Get(a, j)
  {
    if a.Entry? {
      LessTotal(k, a.key);
      if Less(k, a.key) {
        forall j | j in Keys(a) ensures Less(k, j) { if j != a.key { LessTransitive(k, a.key, j); } }
      } else {
        InsertFacts(k, v, a.rest);
      }
    }
  }

  /** Sorting keeps every entry and orders the keys. */
  lemma {:induction false} SortFacts<T>(a: Assoc<T>)
    requires Distinct(a)
    ensures Sorted(Sort(a)) && Keys(Sort(a)) == Keys(a)
    ensures forall j | j in Keys(a) :: Get(Sort(a), j) == Get(a, j)
  {
    if a.Entry? {
      SortFacts(a.rest);
      InsertFacts(a.key, a.value, Sort(a.rest));
    }
  }

  lemma SameHead<T>(a: Assoc<T>, b: Assoc<T>)
    requires a.Entry? && b.Entry? && Sorted(a) && Sorted(b) && Keys(a) == Keys(b)
    ensures a.key == b.key && Keys(a.rest) == Keys(b.rest)
  {
    SortedHead(a);
    SortedHead(b);
    assert a.key in Keys(b) && b.key in Keys(a);
    assert Keys(a.rest) == Keys(a) - {a.key} && Keys(b.rest) == Keys(b) - {b.key};
  }

  /** Sorted lists with the same entries are the same list. */
  lemma {:induction false} SortedUnique<T>(a: Assoc<T>, b: Assoc<T>)
    requires Sorted(a) && Sorted(b) && Keys(a) == Keys(b)
    requires forall k | k in Keys(a) :: Get(a, k) == Get(b, k)
    ensures a == b
  {
    match a
    case End =>
    case Entry(key, _, _) =>
      assert key in Keys(b);
      SameHead(a, b);
      SortedHead(a);
      forall k | k in Keys(a.rest) ensures Get(a.rest, k) == Get(b.rest, k) { assert Get(a, k) == Get(b, k); }
      assert Get(a, key) == Get(b, key);
      SortedUnique(a.rest, b.rest);
  }

  lemma SortedHead<T>(a: Assoc<T>)
    requires Sorted(a) && a.Entry?
    ensures a.key !in Keys(a.rest)
    ensures forall k | k in Keys(a) && k != a.key :: Less(a.key, k) && !Less(k, a.key)
  {
    LessTotal(a.key, a.key);
    forall k | k in Keys(a) && k != a.key ensures Less(a.key, k) && !Less(k, a.key) { LessTotal(a.key, k); }
  }
}
