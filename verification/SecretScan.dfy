/**
 Two scanners for raw secrets: the connector registry's recursion and the credential broker's explicit
 stack. Field names and secret-shaped strings are recognised by arbitrary predicates.
 */
module SecretScan {
  import opened Wrappers
  import opened JsonText

  /** `field` tests a key after lower-casing, `shaped` a string value. */
  datatype Rules = Rules(field: Text -> bool, shaped: Text -> bool)

  // ----- the recursive scan -----

  predicate Clean(v: Json, r: Rules) {
    match v
    case JStr(s) => !r.shaped(s)
    case JArr(l) => CleanAll(l, r)
    case JObj(f) => CleanFields(f, r)
    case _ => true
  }

  predicate CleanAll(l: List<Json>, r: Rules) {
    l.Cons? ==> Clean(l.head, r) && CleanAll(l.tail, r)
  }

  predicate CleanFields(a: Assoc<Json>, r: Rules) {
    a.Entry? ==> !r.field(a.key) && Clean(a.value, r) && CleanFields(a.rest, r)
  }

  // ----- what is scanned: every place of the message -----

  function Nth(l: List<Json>, i: nat): (v: Option<Json>)
    ensures v.Some? ==> v.value < l
  {
    if l.Nil? then None else if i == 0 then Some(l.head) else Nth(l.tail, i - 1)
  }

  function NthEntry(a: Assoc<Json>, i: nat): (e: Option<(Text, Json)>)
    ensures e.Some? ==> e.value.1 < a
  {
    if a.End? then None else if i == 0 then Some((a.key, a.value)) else NthEntry(a.rest, i - 1)
  }

  /** The value found by following a path of positions through array items and object fields. */
  function ValueAt(v: Json, path: seq<nat>): Option<Json>
    decreases |path|
  {
    if path == [] then Some(v)
    else
      var child := match v
        case JArr(l) => Nth(l, path[0])
        case JObj(f) => (var e := NthEntry(f, path[0]); if e.Some? then Some(e.value.1) else None)
        case _ => None;
      if child.None? then None else ValueAt(child.value, path[1..])
  }

  /** At the end of the path stands a secret-shaped string, or an object with a secret field. */
  ghost predicate Exposes(v: Json, path: seq<nat>, r: Rules) {
    ValueAt(v, path).Some? && Raw(ValueAt(v, path).value, r)
  }

  ghost predicate Raw(v: Json, r: Rules) {
    || (v.JStr? && r.shaped(v.s))
    || (v.JObj? && exists i: nat :: NthEntry(v.fields, i).Some? && r.field(NthEntry(v.fields, i).value.0))
  }

  ghost predicate ExposesNothing(v: Json, r: Rules) {
    forall path: seq<nat> :: !Exposes(v, path, r)
  }

  lemma {:induction false} ItemClean(l: List<Json>, i: nat, r: Rules)
    requires CleanAll(l, r) && Nth(l, i).Some?
    ensures Clean(Nth(l, i).value, r)
  {
    if i > 0 { ItemClean(l.tail, i - 1, r); }
  }

  lemma {:induction false} EntryClean(a: Assoc<Json>, i: nat, r: Rules)
    requires CleanFields(a, r) && NthEntry(a, i).Some?
    ensures !r.field(NthEntry(a, i).value.0) && Clean(NthEntry(a, i).value.1, r)
  {
    if i > 0 { EntryClean(a.rest, i - 1, r); }
  }

  lemma {:induction false} CleanEverywhere(v: Json, path: seq<nat>, r: Rules)
    requires Clean(v, r)
    ensures !Exposes(v, path, r)
    decreases |path|
  {
    if path == [] {
      if v.JObj? {
        forall i: nat | NthEntry(v.fields, i).Some? ensures !r.field(NthEntry(v.fields, i).value.0) { EntryClean(v.fields, i, r); }
      }
    } else if ValueAt(v, path).Some? {
      if v.JArr? {
        ItemClean(v.elems, path[0], r);
        CleanEverywhere(Nth(v.elems, path[0]).value, path[1..], r);
      } else {
        EntryClean(v.fields, path[0], r);
        CleanEverywhere(NthEntry(v.fields, path[0]).value.1, path[1..], r);
      }
    }
  }

  lemma {:induction false} UncleanItem(l: List<Json>, r: Rules) returns (i: nat)
    requires !CleanAll(l, r)
    ensures Nth(l, i).Some? && !Clean(Nth(l, i).value, r)
  {
    i := 0;
    if Clean(l.head, r) {
      i := UncleanItem(l.tail, r);
      i := i + 1;
    }
  }

  lemma {:induction false} UncleanEntry(a: Assoc<Json>, r: Rules) returns (i: nat)
    requires !CleanFields(a, r)
    ensures NthEntry(a, i).Some? && (r.field(NthEntry(a, i).value.0) || !Clean(NthEntry(a, i).value.1, r))
  {
    i := 0;
    if !r.field(a.key) && Clean(a.value, r) {
      i := UncleanEntry(a.rest, r);
      i := i + 1;
    }
  }

  /** A value that is not clean exposes something at the path found. */
  lemma {:induction false} Exposed(v: Json, r: Rules) returns (path: seq<nat>)
    requires !Clean(v, r)
    ensures Exposes(v, path, r)
  {
    path := [];
    match v
    case JArr(l) =>
      var i := UncleanItem(l, r);
      var deeper := Exposed(Nth(l, i).value, r);
      path := [i] + deeper;
      assert path[1..] == deeper;
    case JObj(f) =>
      var i := UncleanEntry(f, r);
      if !r.field(NthEntry(f, i).value.0) {
        var deeper := Exposed(NthEntry(f, i).value.1, r);
        path := [i] + deeper;
        assert path[1..] == deeper;
      }
    case _ =>
  }

  /** The recursion accepts exactly the values that expose nothing anywhere. */
  lemma CleanExactlyWhen(v: Json, r: Rules)
    ensures Clean(v, r) <==> ExposesNothing(v, r)
  {
    if Clean(v, r) {
      forall path: seq<nat> ensures !Exposes(v, path, r) { CleanEverywhere(v, path, r); }
    } else {
      var path := Exposed(v, r);
    }
  }

  // ----- the explicit stack -----

  datatype Verdict = InvalidMessage | RawSecret | Accepted

  ghost function Size(v: Json): nat {
    match v
    case JArr(l) => 1 + SizeAll(l)
    case JObj(f) => 1 + SizeFields(f)
    case _ => 1
  }

  ghost function SizeAll(l: List<Json>): nat {
    if l.Nil? then 0 else Size(l.head) + SizeAll(l.tail)
  }

  ghost function SizeFields(a: Assoc<Json>): nat {
    if a.End? then 0 else Size(a.value) + SizeFields(a.rest)
  }

  ghost function StackSize(stack: seq<Json>): nat {
    if stack == [] then 0 else StackSize(stack[..|stack| - 1]) + Size(stack[|stack| - 1])
  }

  predicate StackClean(stack: seq<Json>, r: Rules) {
    forall i | 0 <= i < |stack| :: Clean(stack[i], r)
  }

  lemma Pushed(stack: seq<Json>, v: Json, r: Rules)
    ensures StackSize(stack + [v]) == StackSize(stack) + Size(v)
    ensures StackClean(stack + [v], r) <==> StackClean(stack, r) && Clean(v, r)
  {
    assert (stack + [v])[..|stack|] == stack;
    if StackClean(stack + [v], r) {
      assert (stack + [v])[|stack|] == v;
      forall i | 0 <= i < |stack| ensures Clean(stack[i], r) { assert (stack + [v])[i] == stack[i]; }
    }
  }

  /** The broker's scan terminates, gives the recursive scan's answer at any nesting depth, and accepts exactly
      the objects and arrays in which no place exposes a secret. */
  method ScanWorkerMessage(message: Json, r: Rules) returns (verdict: Verdict)
    ensures verdict.InvalidMessage? <==> !message.JObj? && !message.JArr?
    ensures verdict.Accepted? <==> (message.JObj? || message.JArr?) && Clean(message, r)
    ensures verdict.Accepted? <==> (message.JObj? || message.JArr?) && ExposesNothing(message, r)
  {
    CleanExactlyWhen(message, r);
    if !message.JObj? && !message.JArr? {
      return InvalidMessage;
    }
    var clean := ScanStack(message, r);
    verdict := if clean then Accepted else RawSecret;
  }

  method ScanStack(message: Json, r: Rules) returns (clean: bool)
    ensures clean == Clean(message, r)
  {
    var stack := [message];
    Pushed([], message, r);
    assert [] + [message] == [message];
    while stack != []
      invariant Clean(message, r) <==> StackClean(stack, r)
      decreases StackSize(stack)
    {
      var value := stack[|stack| - 1];
      ghost var before := stack;
      stack := stack[..|stack| - 1];
      assert before == stack + [value];
      Pushed(stack, value, r);
      match value {
        case JArr(l) =>
          stack := PushAll(stack, l, r);
        case JObj(f) =>
          var found;
          found, stack := PushFields(stack, f, r);
          if found {
            return false;
          }
        case JStr(s) =>
          if r.shaped(s) {
            return false;
          }
        case _ =>
      }
    }
    clean := true;
  }

  method PushAll(stack: seq<Json>, l: List<Json>, r: Rules) returns (out: seq<Json>)
    ensures StackSize(out) == StackSize(stack) + SizeAll(l)
    ensures StackClean(out, r) <==> StackClean(stack, r) && CleanAll(l, r)
  {
    out := stack;
    var rest := l;
    while rest.Cons?
      invariant StackSize(out) + SizeAll(rest) == StackSize(stack) + SizeAll(l)
      invariant StackClean(out, r) && CleanAll(rest, r) <==> StackClean(stack, r) && CleanAll(l, r)
      decreases rest
    {
      Pushed(out, rest.head, r);
      out := out + [rest.head];
      rest := rest.tail;
    }
  }

  method PushFields(stack: seq<Json>, a: Assoc<Json>, r: Rules) returns (found: bool, out: seq<Json>)
    ensures found ==> !CleanFields(a, r)
    ensures !found ==> StackSize(out) == StackSize(stack) + SizeFields(a)
    ensures !found ==> (StackClean(out, r) <==> StackClean(stack, r) && CleanFields(a, r))
  {
    out := stack;
    found := false;
    var rest := a;
    while rest.Entry?
      invariant !CleanFields(rest, r) ==> !CleanFields(a, r)
      invariant StackSize(out) + SizeFields(rest) == StackSize(stack) + SizeFields(a)
      invariant StackClean(out, r) && CleanFields(rest, r) <==> StackClean(stack, r) && CleanFields(a, r)
      decreases rest
    {
      if r.field(rest.key) {
        found := true;
        return;
      }
      Pushed(out, rest.value, r);
      out := out + [rest.value];
      rest := rest.rest;
    }
  }
}
