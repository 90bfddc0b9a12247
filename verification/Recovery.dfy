/**
 The recovery_control singleton: restores freeze the writers, three surfaces are marked reconciled,
 and only then may the writers reopen. Operations are atomic.
 */
module Recovery {

  datatype Surface = Postgres | DbosState | Providers

  datatype Control = Control(frozen: bool, epoch: nat, postgres: bool, dbos: bool, providers: bool) {
    predicate Marked(s: Surface) {
      match s
      case Postgres => postgres
      case DbosState => dbos
      case Providers => providers
    }
  }

  const INITIAL: Control := Control(false, 0, false, false, false)

  datatype Op = Begin | Mark(surface: Surface) | Complete

  function BeginRestore(c: Control): Control {
    Control(true, c.epoch + 1, false, false, false)
  }

  /** Refused (and nothing written) outside a restore. */
  function MarkReconciled(c: Control, s: Surface): Control {
    if !c.frozen then c
    else match s
      case Postgres => c.(postgres := true)
      case DbosState => c.(dbos := true)
      case Providers => c.(providers := true)
  }

  /** Refused while a surface is missing; a no-op when already open. */
  function CompleteRestore(c: Control): Control {
    if c.frozen && c.postgres && c.dbos && c.providers then c.(frozen := false) else c
  }

  function Apply(c: Control, op: Op): Control {
    match op
    case Begin => BeginRestore(c)
    case Mark(s) => MarkReconciled(c, s)
    case Complete => CompleteRestore(c)
  }

  function Run(c: Control, ops: seq<Op>): Control
    decreases |ops|
  {
    if ops == [] then c else Apply(Run(c, ops[..|ops| - 1]), ops[|ops| - 1])
  }

  lemma {:induction false} RunAppends(c: Control, ops: seq<Op>, more: seq<Op>)
    ensures Run(c, ops + more) == Run(Run(c, ops), more)
    decreases |more|
  {
    if more == [] {
      assert ops + more == ops;
    } else {
      RunAppends(c, ops, more[..|more| - 1]);
      assert (ops + more)[..|ops + more| - 1] == ops + more[..|more| - 1];
    }
  }

  /** Two controls that are both open, or frozen with the same marks. */
  predicate Alike(c: Control, d: Control) {
    c.frozen == d.frozen && (c.frozen ==> c.postgres == d.postgres && c.dbos == d.dbos && c.providers == d.providers)
  }

  lemma {:induction false} RunAlike(c: Control, d: Control, ops: seq<Op>)
    requires Alike(c, d)
    ensures Alike(Run(c, ops), Run(d, ops))
    decreases |ops|
  {
    if ops != [] { RunAlike(c, d, ops[..|ops| - 1]); }
  }

  class RecoveryControl {
    var frozen: bool
    var epoch: nat
    var postgres: bool
    var dbos: bool
    var providers: bool

    constructor ()
      ensures Current() == INITIAL
    {
      frozen, epoch, postgres, dbos, providers := false, 0, false, false, false;
    }

    function Current(): Control
      reads this
    {
      Control(frozen, epoch, postgres, dbos, providers)
    }

    method Begin()
      modifies this
      ensures Current() == BeginRestore(old(Current()))
    {
      frozen, epoch := true, epoch + 1;
      postgres, dbos, providers := false, false, false;
    }

    method MarkSurface(s: Surface) returns (refused: bool)
      modifies this
      ensures refused == !old(frozen) && Current() == MarkReconciled(old(Current()), s)
    {
      refused := !frozen;
      if !refused {
        match s
        case Postgres => postgres := true;
        case DbosState => dbos := true;
        case Providers => providers := true;
      }
    }

    method Complete() returns (missing: seq<Surface>)
      modifies this
      ensures Current() == CompleteRestore(old(Current()))
      ensures forall s: Surface :: s in missing <==> old(frozen) && !old(Current()).Marked(s)
    {
      missing := [];
      if frozen {
        if !postgres { missing := missing + [Postgres]; }
        if !dbos { missing := missing + [DbosState]; }
        if !providers { missing := missing + [Providers]; }
        forall s: Surface ensures s in missing <==> !Current().Marked(s) {
          match s case Postgres => case DbosState => case Providers =>
        }
        if missing == [] {
          frozen := false;
        }
      }
    }
  }

  // ----- when are the writers open? -----

  /** `op` was performed at some point in ops[lo..hi]. */
  ghost predicate Between(ops: seq<Op>, op: Op, lo: nat, hi: nat) {
    exists i | lo <= i < hi && i < |ops| :: ops[i] == op
  }

  /** Just after the latest beginRestore; 0 when there was none. */
  function LatestBegin(ops: seq<Op>): (b: nat)
    ensures b <= |ops|
    ensures forall i | b <= i < |ops| :: ops[i] != Begin
    ensures b > 0 ==> ops[b - 1] == Begin
    decreases |ops|
  {
    if ops == [] then 0
    else if ops[|ops| - 1] == Begin then |ops|
    else LatestBegin(ops[..|ops| - 1])
  }

  /** Told from the history alone: no restore ever began, or since the latest one all three surfaces
      were marked and then a completeRestore was issued. */
  ghost predicate OpenByHistory(ops: seq<Op>) {
    LatestBegin(ops) == 0
    || exists c | LatestBegin(ops) <= c < |ops| ::
         ops[c] == Complete && forall s: Surface :: Between(ops, Mark(s), LatestBegin(ops), c)
  }

  function Begins(ops: seq<Op>): nat {
    if ops == [] then 0 else Begins(ops[..|ops| - 1]) + (if ops[|ops| - 1] == Begin then 1 else 0)
  }

  lemma BetweenExtends(ops: seq<Op>, op: Op, lo: nat, hi: nat)
    requires ops != [] && hi < |ops|
    ensures Between(ops, op, lo, hi) <==> Between(ops[..|ops| - 1], op, lo, hi)
  {
    var init := ops[..|ops| - 1];
    if Between(ops, op, lo, hi) {
      var i :| lo <= i < hi && i < |ops| && ops[i] == op;
      assert init[i] == op;
    }
  }

  lemma BetweenGrows(ops: seq<Op>, op: Op, lo: nat)
    requires ops != [] && lo < |ops|
    ensures Between(ops, op, lo, |ops|) <==> Between(ops[..|ops| - 1], op, lo, |ops| - 1) || ops[|ops| - 1] == op
  {
    BetweenExtends(ops, op, lo, |ops| - 1);
    if Between(ops, op, lo, |ops|) {
      var i :| lo <= i < |ops| && ops[i] == op;
      if i < |ops| - 1 {
        assert Between(ops, op, lo, |ops| - 1);
      }
    }
  }

  /** The flags say exactly what was marked since the latest beginRestore, while frozen. */
  lemma {:induction false} FlagsTellHistory(ops: seq<Op>, s: Surface)
    ensures LatestBegin(ops) == 0 ==> Run(INITIAL, ops) == INITIAL
    ensures LatestBegin(ops) > 0 && Run(INITIAL, ops).frozen ==>
      (Run(INITIAL, ops).Marked(s) <==> Between(ops, Mark(s), LatestBegin(ops), |ops|))
    decreases |ops|
  {
    if ops != [] {
      FlagsTellHistory(ops[..|ops| - 1], s);
      if LatestBegin(ops) < |ops| {
        BetweenGrows(ops, Mark(s), LatestBegin(ops));
      }
    }
  }

  lemma OpenExtends(ops: seq<Op>)
    requires ops != [] && ops[|ops| - 1] != Begin && OpenByHistory(ops[..|ops| - 1])
    ensures OpenByHistory(ops)
  {
    var init := ops[..|ops| - 1];
    var b := LatestBegin(ops);
    if b > 0 {
      var c :| b <= c < |init| && init[c] == Complete && forall s: Surface :: Between(init, Mark(s), b, c);
      forall s: Surface ensures Between(ops, Mark(s), b, c) { BetweenExtends(ops, Mark(s), b, c); }
      assert ops[c] == Complete;
    }
  }

  lemma OpenShrinks(ops: seq<Op>)
    requires ops != [] && ops[|ops| - 1] != Begin && ops[|ops| - 1] != Complete && OpenByHistory(ops)
    ensures OpenByHistory(ops[..|ops| - 1])
  {
    var init := ops[..|ops| - 1];
    var b := LatestBegin(ops);
    if b > 0 {
      var c :| b <= c < |ops| && ops[c] == Complete && forall s: Surface :: Between(ops, Mark(s), b, c);
      forall s: Surface ensures Between(init, Mark(s), b, c) { BetweenExtends(ops, Mark(s), b, c); }
      assert init[c] == Complete;
    }
  }

  /** Writers are open exactly when no restore ever began, or all three surfaces were marked since the
      latest beginRestore and a completeRestore followed; the epoch counts the restores. */
  lemma {:induction false} OpenExactlyByHistory(ops: seq<Op>)
    ensures !Run(INITIAL, ops).frozen <==> OpenByHistory(ops)
    ensures Run(INITIAL, ops).epoch == Begins(ops) && (Begins(ops) == 0 <==> LatestBegin(ops) == 0)
    decreases |ops|
  {
    if ops != [] {
      var init := ops[..|ops| - 1];
      var last := ops[|ops| - 1];
      OpenExactlyByHistory(init);
      if last == Begin {
      } else if last != Complete {
        if OpenByHistory(init) { OpenExtends(ops); }
        if OpenByHistory(ops) { OpenShrinks(ops); }
      } else {
        CompleteCase(ops);
      }
    }
  }

  lemma MarksCarryOver(ops: seq<Op>)
    requires OpenByHistory(ops) && LatestBegin(ops) > 0 && ops != []
    ensures forall s: Surface :: Between(ops, Mark(s), LatestBegin(ops), |ops| - 1)
  {
    var b := LatestBegin(ops);
    var c :| b <= c < |ops| && ops[c] == Complete && forall s: Surface :: Between(ops, Mark(s), b, c);
    forall s: Surface ensures Between(ops, Mark(s), b, |ops| - 1) {
      var i :| b <= i < c && i < |ops| && ops[i] == Mark(s);
    }
  }

  lemma CompleteCase(ops: seq<Op>)
    requires ops != [] && ops[|ops| - 1] == Complete
    requires !Run(INITIAL, ops[..|ops| - 1]).frozen <==> OpenByHistory(ops[..|ops| - 1])
    ensures !Run(INITIAL, ops).frozen <==> OpenByHistory(ops)
  {
    var init := ops[..|ops| - 1];
    var b := LatestBegin(ops);
    if OpenByHistory(init) {
      OpenExtends(ops);
    } else {
      forall s: Surface
        ensures Between(ops, Mark(s), b, |init|) <==> Run(INITIAL, init).Marked(s)
      {
        FlagsTellHistory(init, s);
        BetweenExtends(ops, Mark(s), b, |init|);
      }
      var all := forall s: Surface :: Between(ops, Mark(s), b, |init|);
      if all {
        assert ops[|init|] == Complete;
        assert OpenByHistory(ops);
        assert Between(ops, Mark(Postgres), b, |init|) && Between(ops, Mark(DbosState), b, |init|) && Between(ops, Mark(Providers), b, |init|);
      } else if OpenByHistory(ops) {
        MarksCarryOver(ops);
      }
    }
  }

  /** If the writers were open after `before`, what followed decides alone whether they are open now. */
  lemma OpenSince(before: seq<Op>, after: seq<Op>)
    requires !Run(INITIAL, before).frozen
    ensures Run(INITIAL, before + after).frozen <==> !OpenByHistory(after)
  {
    RunAppends(INITIAL, before, after);
    RunAlike(Run(INITIAL, before), INITIAL, after);
    OpenExactlyByHistory(after);
  }
}
