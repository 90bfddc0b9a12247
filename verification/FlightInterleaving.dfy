/**
 The schedules of TenantInterleaving with decision flights: a call that enforces single flight sweeps its
 workflow's overdue flights and reads the latest one before it loads its ledger row; flights are acquired,
 cancelled, completed and swept between any two statements, up to the adapter commit and beyond.
 */
module FlightInterleaving {
  import opened Wrappers
  import opened Effects
  import opened TenantInterleaving
  import S = SingleFlight

  datatype Stage = Unswept | Swept | Passed(flight: nat) | Barred

  /** A call that enforces single flight, with the bindings it was given. */
  datatype Fenced = Fenced(workflow: S.Workflow, binding: S.FlightKey, stage: Stage)

  datatype World = World(base: State, flights: seq<S.Flight>, calls: map<Tid, Fenced>)

  const START: World := World(EMPTY, [], map[])

  datatype Act =
    | Base(l: Label)
    | OpenFenced(key: Key, capability: string, workflow: S.Workflow, binding: S.FlightKey)
    | Fly(stmt: S.Stmt)
    | Sweeps(t: Tid, now: int)
    | Reads(t: Tid, row: Option<nat>)

  /** The fence of `t` has still to be passed. */
  predicate AtFence(w: World, t: Tid) {
    t in w.calls && !w.calls[t].stage.Passed? && t in w.base.txs && w.base.txs[t].Exec? && w.base.txs[t].call.pc.AtLoad?
  }

  /** The statement on decision_flights an act makes, if any. */
  function Flown(w: World, act: Act): Option<S.Stmt> {
    match act
    case Fly(stmt) => Some(stmt)
    case Sweeps(t, now) => if AtFence(w, t) && w.calls[t].stage.Unswept? then Some(S.ExpireWorkflow(w.calls[t].workflow, now)) else None
    case _ => None
  }

  function FlightsAfter(w: World, act: Act): seq<S.Flight> {
    if Flown(w, act).Some? then S.Apply(w.flights, Flown(w, act).value) else w.flights
  }

  /** What the fence makes of a row its SELECT may return; a row it cannot return changes nothing. */
  ghost function ReadStage(w: World, t: Tid, row: Option<nat>): Stage
    requires t in w.calls
  {
    var c := w.calls[t];
    if row.Some? && S.Latest(w.flights, c.workflow, row.value) then
      if S.JudgeRow(w.flights[row.value], c.binding, true).Allowed? then Passed(row.value) else Barred
    else if row.None? && (forall f | f in w.flights :: f.workflow != c.workflow) then Barred     // FLIGHT_REQUIRED
    else c.stage
  }

  ghost function BaseAfter(w: World, act: Act): State {
    match act
    case Base(l) => if l.Advance? && AtFence(w, l.t) then w.base else Step(w.base, l)
    case OpenFenced(k, cap, _, _) => Step(w.base, BeginExec(k, cap))
    case _ => w.base
  }

  ghost function CallsAfter(w: World, act: Act): map<Tid, Fenced> {
    match act
    case OpenFenced(_, _, wf, binding) => w.calls[w.base.next := Fenced(wf, binding, Unswept)]
    case Sweeps(t, _) => if Flown(w, act).Some? then w.calls[t := w.calls[t].(stage := Swept)] else w.calls
    case Reads(t, row) => if AtFence(w, t) && w.calls[t].stage.Swept? then w.calls[t := w.calls[t].(stage := ReadStage(w, t, row))] else w.calls
    case _ => w.calls
  }

  ghost function Do(w: World, act: Act): World {
    var base := BaseAfter(w, act);
    World(base, FlightsAfter(w, act), map t | t in CallsAfter(w, act) && t in base.txs :: CallsAfter(w, act)[t])
  }

  ghost function After(acts: seq<Act>): World
    decreases |acts|
  {
    if acts == [] then START else Do(After(acts[..|acts| - 1]), acts[|acts| - 1])
  }

  // ----- what every schedule keeps -----

  /** A fenced call that has not passed is at its first two statements, or denied before them. */
  predicate Waiting(x: Tx) {
    x.Exec? && (x.call.pc.AtAuthority? || x.call.pc.AtLoad? || x.call.pc.Returned?)
  }

  ghost predicate Sound(w: World) {
    && S.OneActive(w.flights)
    && (forall t | t in w.base.txs :: t < w.base.next)
    && (forall t | t in w.calls :: t in w.base.txs && (w.calls[t].stage.Passed? || Waiting(w.base.txs[t])))
  }

  lemma StmtWaits(v: View, t: Tid, x: Call, e: Around, c: Choice)
    ensures var m := ExecStmt(v, t, x, e, c); m.Move? && (x.pc.AtAuthority? || x.pc.Returned?) ==> m.call.pc.AtLoad? || m.call.pc.Returned?
  {
  }

  lemma StepWaits(s: State, l: Label, t: Tid)
    requires t in s.txs && t < s.next && Waiting(s.txs[t]) && t in Step(s, l).txs
    requires l.Advance? && l.t == t ==> !s.txs[t].call.pc.AtLoad?
    ensures Waiting(Step(s, l).txs[t])
  {
    if l.Advance? && l.t == t {
      var x := s.txs[t].call;
      StmtWaits(ViewOf(s, t), t, x, AroundOf(s, t, x), l.choice);
    }
  }

  lemma StepNumbers(s: State, l: Label)
    requires forall t | t in s.txs :: t < s.next
    ensures forall t | t in Step(s, l).txs :: t < Step(s, l).next
  {
  }

  lemma WaitsOn(w: World, act: Act, t: Tid)
    requires Sound(w) && t in w.calls && !w.calls[t].stage.Passed? && t in BaseAfter(w, act).txs && t != w.base.next
    ensures Waiting(BaseAfter(w, act).txs[t])
  {
    match act
    case Base(l) => if !(l.Advance? && AtFence(w, l.t)) { StepWaits(w.base, l, t); }
    case OpenFenced(k, cap, _, _) => StepWaits(w.base, BeginExec(k, cap), t);
    case _ =>
  }

  lemma NumbersKept(w: World, act: Act)
    requires Sound(w)
    ensures forall t | t in BaseAfter(w, act).txs :: t < BaseAfter(w, act).next
  {
    match act
    case Base(l) => StepNumbers(w.base, l);
    case OpenFenced(k, cap, _, _) => StepNumbers(w.base, BeginExec(k, cap));
    case _ =>
  }

  lemma DoSound(w: World, act: Act)
    requires Sound(w)
    ensures Sound(Do(w, act))
  {
    var w' := Do(w, act);
    if Flown(w, act).Some? { S.ApplyKeepsOneActive(w.flights, Flown(w, act).value); }
    NumbersKept(w, act);
    forall t | t in w'.calls ensures w'.calls[t].stage.Passed? || Waiting(w'.base.txs[t]) {
      if t in w.calls && !w'.calls[t].stage.Passed? && t != w.base.next { WaitsOn(w, act, t); }
    }
  }

  lemma {:induction false} AfterSound(acts: seq<Act>)
    ensures Sound(After(acts))
    decreases |acts|
  {
    if acts != [] {
      AfterSound(acts[..|acts| - 1]);
      DoSound(After(acts[..|acts| - 1]), acts[|acts| - 1]);
    }
  }

  // ----- the fence itself -----

  /** A call at the fence first sweeps its workflow's overdue flights. */
  lemma SweepDecides(w: World, t: Tid, now: int)
    requires AtFence(w, t) && w.calls[t].stage.Unswept?
    ensures var w' := Do(w, Sweeps(t, now));
      && w'.flights == S.Apply(w.flights, S.ExpireWorkflow(w.calls[t].workflow, now)) && w'.base == w.base
      && t in w'.calls && w'.calls[t] == w.calls[t].(stage := Swept)
  {
  }

  /** Then the latest flight of its workflow decides: it passes exactly if that is ACTIVE and all three bindings are
      given and are that flight's; otherwise, and without any flight, it is denied. */
  lemma ReadDecides(w: World, t: Tid, row: Option<nat>)
    requires AtFence(w, t) && w.calls[t].stage.Swept?
    requires if row.Some? then S.Latest(w.flights, w.calls[t].workflow, row.value) else forall f | f in w.flights :: f.workflow != w.calls[t].workflow
    ensures var w', b := Do(w, Reads(t, row)), w.calls[t].binding;
      && t in w'.calls && w'.flights == w.flights && w'.base == w.base
      && (w'.calls[t].stage.Passed? <==>
            row.Some? && w.flights[row.value].status.Active? && b.subject != "" && b.routine != "" && b.stage != "" && w.flights[row.value].key == b)
      && (w'.calls[t].stage.Passed? ==> w'.calls[t].stage.flight == row.value)
      && (!w'.calls[t].stage.Passed? ==> w'.calls[t].stage.Barred?)
  {
  }

  // ----- a flight between the fence and the commit -----

  /** The f-th act is the SELECT with which `t` passed the fence, on flight `i`. */
  ghost predicate PassedAt(acts: seq<Act>, f: nat, t: Tid, i: nat) {
    && f < |acts| && acts[f] == Reads(t, Some(i))
    && var w := After(acts[..f]); AtFence(w, t) && w.calls[t].stage.Swept? && ReadStage(w, t, Some(i)) == Passed(i)
  }

  /** Passing means: an ACTIVE flight of the call's own workflow, for exactly the bindings given. */
  lemma PassedOnItsFlight(acts: seq<Act>, f: nat, t: Tid, i: nat)
    requires PassedAt(acts, f, t, i)
    ensures var w := After(acts[..f]);
      i < |w.flights| && S.HoldsKey(w.flights[i], w.calls[t].binding) && w.flights[i].workflow == w.calls[t].workflow
  {
  }

  lemma PassStep(w: World, act: Act, t: Tid)
    requires t in Do(w, act).calls && Do(w, act).calls[t].stage.Passed?
    ensures var i := Do(w, act).calls[t].stage.flight;
      || (t in w.calls && w.calls[t] == Do(w, act).calls[t])
      || (act == Reads(t, Some(i)) && AtFence(w, t) && w.calls[t].stage.Swept? && ReadStage(w, t, Some(i)) == Passed(i)
          && Do(w, act).calls[t] == w.calls[t].(stage := Passed(i)))
  {
  }

  /** A call that has passed did so at some act, with the bindings it still has. */
  lemma {:induction false} PassHistory(acts: seq<Act>, t: Tid) returns (f: nat)
    requires t in After(acts).calls && After(acts).calls[t].stage.Passed?
    ensures PassedAt(acts, f, t, After(acts).calls[t].stage.flight)
    ensures After(acts).calls[t] == After(acts[..f]).calls[t].(stage := After(acts).calls[t].stage)
    decreases |acts|
  {
    var init, last := acts[..|acts| - 1], acts[|acts| - 1];
    PassStep(After(init), last, t);
    if t in After(init).calls && After(init).calls[t] == After(acts).calls[t] {
      f := PassHistory(init, t);
      assert init[..f] == acts[..f];
    } else {
      f := |acts| - 1;
    }
  }

  /** The k-th act ends this flight. */
  ghost predicate EndsAt(acts: seq<Act>, k: nat, fl: S.Flight)
    requires k < |acts|
  {
    var stmt := Flown(After(acts[..k]), acts[k]);
    stmt.Some? && S.Ends(fl, stmt.value)
  }

  ghost predicate SurvivesFrom(acts: seq<Act>, f: nat, m: nat, fl: S.Flight)
    requires m <= |acts|
  {
    forall k | f <= k < m :: !EndsAt(acts, k, fl)
  }

  /** What one act makes of a flight. */
  lemma FlightStep(w: World, act: Act, i: nat)
    requires i < |w.flights|
    ensures var fs := FlightsAfter(w, act);
      && i < |fs| && fs[i] == w.flights[i].(status := fs[i].status)
      && (fs[i].status.Active? <==> w.flights[i].status.Active? && !(Flown(w, act).Some? && S.Ends(w.flights[i], Flown(w, act).value)))
  {
  }

  lemma FlightNext(acts: seq<Act>, m: nat, i: nat)
    requires m < |acts| && i < |After(acts[..m]).flights|
    ensures var f, fs := After(acts[..m]).flights[i], After(acts[..m + 1]).flights;
      i < |fs| && fs[i] == f.(status := fs[i].status) && (fs[i].status.Active? <==> f.status.Active? && !EndsAt(acts, m, f))
  {
    assert acts[..m + 1][..m] == acts[..m];
    FlightStep(After(acts[..m]), acts[m], i);
  }

  lemma {:induction false} FlightFate(acts: seq<Act>, f: nat, m: nat, i: nat)
    requires f <= m <= |acts| && i < |After(acts[..f]).flights| && After(acts[..f]).flights[i].status.Active?
    ensures var fl, fs := After(acts[..f]).flights[i], After(acts[..m]).flights;
      i < |fs| && fs[i] == fl.(status := fs[i].status) && (fs[i].status.Active? <==> SurvivesFrom(acts, f, m, fl))
    decreases m
  {
    if f < m {
      FlightFate(acts, f, m - 1, i);
      FlightNext(acts, m - 1, i);
      SurvivesNext(acts, f, m, After(acts[..f]).flights[i]);
    }
  }

  lemma SurvivesNext(acts: seq<Act>, f: nat, m: nat, fl: S.Flight)
    requires f < m <= |acts|
    ensures SurvivesFrom(acts, f, m, fl) <==> SurvivesFrom(acts, f, m - 1, fl) && !EndsAt(acts, m - 1, fl)
  {
  }

  /** The act makes `t` add its key to the adapter. */
  ghost predicate CommitsFresh(w: World, act: Act, t: Tid) {
    exists k: Key, token: Token :: BaseAfter(w, act).log == w.base.log + [FreshCommit(t, k, token)]
  }

  lemma FreshIsPastTheFence(w: World, act: Act, t: Tid)
    requires Sound(w) && t in w.calls && CommitsFresh(w, act, t)
    ensures w.calls[t].stage.Passed?
  {
    var k: Key, token: Token :| BaseAfter(w, act).log == w.base.log + [FreshCommit(t, k, token)];
    assert BaseAfter(w, act).log[|w.base.log|] == FreshCommit(t, k, token);
    var l := if act.Base? then act.l else BeginExec("", "");
    FreshAdvances(w.base, l, t, k, token);
  }

  lemma CommitsAtTheAdapter(v: View, t: Tid, x: Call, e: Around, c: Choice)
    ensures var m := ExecStmt(v, t, x, e, c); m.Move? && m.commit ==> x.pc.AtAdapterCommit?
  {
  }

  lemma ExecLogs(s: State, u: Tid, c: Choice, t: Tid, k: Key, token: Token)
    requires u in s.txs && s.txs[u].Exec? && FreshCommit(t, k, token) in Step(s, Advance(u, c)).log[|s.log|..]
    ensures u == t && s.txs[t].call.pc.AtAdapterCommit?
  {
    var x := s.txs[u].call;
    CommitsAtTheAdapter(ViewOf(s, u), u, x, AroundOf(s, u, x), c);
  }

  lemma RecLogs(s: State, u: Tid, c: Choice, t: Tid, k: Key, token: Token)
    requires u in s.txs && s.txs[u].Rec?
    ensures FreshCommit(t, k, token) !in Step(s, Advance(u, c)).log[|s.log|..]
  {
  }

  lemma OthersLog(s: State, l: Label, t: Tid, k: Key, token: Token)
    requires !l.Advance? || l.t !in s.txs
    ensures |Step(s, l).log| >= |s.log| && FreshCommit(t, k, token) !in Step(s, l).log[|s.log|..]
  {
  }

  /** Only a call at its adapter commit logs one. */
  lemma FreshAdvances(s: State, l: Label, t: Tid, k: Key, token: Token)
    requires t in s.txs && Step(s, l).log == s.log + [FreshCommit(t, k, token)]
    ensures s.txs[t].Exec? && s.txs[t].call.pc.AtAdapterCommit?
  {
    assert Step(s, l).log[|s.log|..] == [FreshCommit(t, k, token)];
    if !l.Advance? || l.t !in s.txs {
      OthersLog(s, l, t, k, token);
    } else if s.txs[l.t].Exec? {
      ExecLogs(s, l.t, l.choice, t, k, token);
    } else {
      RecLogs(s, l.t, l.choice, t, k, token);
    }
  }

  /** In every schedule: a call that enforces single flight and freshly commits passed the fence on an ACTIVE
      flight of its workflow and bindings, and that flight is still ACTIVE at the commit exactly when no act
      from then on ended it; while it is, it is the only ACTIVE flight for those bindings. */
  lemma CommitsOnItsFlightExactlyWhen(acts: seq<Act>, m: nat, t: Tid) returns (f: nat, i: nat)
    requires m < |acts| && t in After(acts[..m]).calls && CommitsFresh(After(acts[..m]), acts[m], t)
    ensures f < m && PassedAt(acts, f, t, i)
    ensures var fl, w := After(acts[..f]).flights[i], After(acts[..m]);
      && S.HoldsKey(fl, w.calls[t].binding) && fl.workflow == w.calls[t].workflow && w.calls[t].stage == Passed(i)
      && i < |w.flights| && w.flights[i] == fl.(status := w.flights[i].status)
      && (w.flights[i].status.Active? <==> SurvivesFrom(acts, f, m, fl))
      && (w.flights[i].status.Active? ==> forall j | 0 <= j < |w.flights| && S.HoldsKey(w.flights[j], w.calls[t].binding) :: j == i)
  {
    var w := After(acts[..m]);
    AfterSound(acts[..m]);
    FreshIsPastTheFence(w, acts[m], t);
    f := PassHistory(acts[..m], t);
    i := w.calls[t].stage.flight;
    assert acts[..m][..f] == acts[..f];
    PassedOnItsFlight(acts, f, t, i);
    FlightFate(acts, f, m, i);
  }

  lemma OneMore(acts: seq<Act>, act: Act)
    ensures After(acts + [act]) == Do(After(acts), act)
  {
    assert (acts + [act])[..|acts|] == acts;
  }

  /** Commits without its flight are always possible: cancel the workflow right before the commit, and the call
      still commits, its flight no longer ACTIVE. */
  lemma CancelledBeforeTheCommit(acts: seq<Act>, m: nat, t: Tid) returns (i: nat)
    requires m < |acts| && t in After(acts[..m]).calls && CommitsFresh(After(acts[..m]), acts[m], t)
    ensures var w := After(acts[..m] + [Fly(S.Cancel(After(acts[..m]).calls[t].workflow))]);
      && CommitsFresh(w, acts[m], t) && t in w.calls && w.calls[t].stage == Passed(i)
      && i < |w.flights| && !w.flights[i].status.Active?
  {
    var w := After(acts[..m]);
    var wf := w.calls[t].workflow;
    var f;
    f, i := CommitsOnItsFlightExactlyWhen(acts, m, t);
    OneMore(acts[..m], Fly(S.Cancel(wf)));
    AfterSound(acts[..m]);
    CancelLeavesTheCall(w, wf, acts[m], t);
    FlightStep(w, Fly(S.Cancel(wf)), i);
  }

  /** A cancellation leaves every call where it is. */
  lemma CancelLeavesTheCall(w: World, wf: S.Workflow, act: Act, t: Tid)
    requires t in w.calls && (forall u | u in w.calls :: u in w.base.txs) && CommitsFresh(w, act, t)
    ensures var w' := Do(w, Fly(S.Cancel(wf)));
      w'.base == w.base && w'.calls == w.calls && CommitsFresh(w', act, t)
  {
    var w' := Do(w, Fly(S.Cancel(wf)));
    assert w'.calls == w.calls;
    var k: Key, token: Token :| BaseAfter(w, act).log == w.base.log + [FreshCommit(t, k, token)];
    assert BaseAfter(w', act).log == w'.base.log + [FreshCommit(t, k, token)];
  }
}
