/**
 Decision flights of one tenant: rows of decision_flights in insertion order, changed by the SQL
 statements of single-flight.js. Statements are atomic, calls are not: any other worker's statements
 may fall between two statements of a call.
 */
module SingleFlight {
  import opened Wrappers

  type Workflow = string

  datatype FlightStatus = Active | Finished | Cancelled | Expired

  /** subject_ref, routine_id and logical_stage. */
  datatype FlightKey = FlightKey(subject: string, routine: string, stage: string)

  datatype Flight = Flight(key: FlightKey, workflow: Workflow, status: FlightStatus, created: int, expires: Option<int>)

  predicate Overdue(f: Flight, now: int) {
    f.expires.Some? && f.expires.value < now
  }

  predicate HoldsKey(f: Flight, key: FlightKey) {
    f.status.Active? && f.key == key
  }

  // ----- statements -----

  datatype Stmt =
    | ExpireKey(key: FlightKey, now: int)
    | ExpireWorkflow(workflow: Workflow, now: int)
    | Cancel(workflow: Workflow)
    | Complete(workflow: Workflow)
    | Insert(key: FlightKey, workflow: Workflow, created: int, expires: Option<int>)

  /** The partial unique index would reject another ACTIVE row for the key. */
  predicate Taken(fs: seq<Flight>, key: FlightKey) {
    exists f | f in fs :: HoldsKey(f, key)
  }

  /** What an UPDATE statement does to one row. */
  function Touch(f: Flight, s: Stmt): (g: Flight)
    ensures !f.status.Active? ==> g == f
    ensures g == f.(status := g.status)
  {
    if !f.status.Active? then f
    else match s
      case ExpireKey(key, now) => if f.key == key && Overdue(f, now) then f.(status := Expired) else f
      case ExpireWorkflow(w, now) => if f.workflow == w && Overdue(f, now) then f.(status := Expired) else f
      case Cancel(w) => if f.workflow == w then f.(status := Cancelled) else f
      case Complete(w) => if f.workflow == w then f.(status := Finished) else f
      case Insert(_, _, _, _) => f
  }

  function Apply(fs: seq<Flight>, s: Stmt): (gs: seq<Flight>)
    ensures |gs| >= |fs| && forall i | 0 <= i < |fs| :: gs[i] == Touch(fs[i], s)
  {
    if s.Insert? then
      if Taken(fs, s.key) then fs else fs + [Flight(s.key, s.workflow, Active, s.created, s.expires)]
    else seq(|fs|, i requires 0 <= i < |fs| => Touch(fs[i], s))
  }

  function Run(fs: seq<Flight>, ss: seq<Stmt>): seq<Flight>
    decreases |ss|
  {
    if ss == [] then fs else Apply(Run(fs, ss[..|ss| - 1]), ss[|ss| - 1])
  }

  // ----- calls -----

  datatype Mode = Acquired | Joined

  /** The flight answered and how, or the failed INSERT's error passed on. */
  datatype Answer = Got(mode: Mode, flight: nat) | Threw

  /** What others do between the statements of acquireOrJoinDecisionFlight: after its expiry sweep, after a
      SELECT that found nothing, and after its INSERT, whether that succeeded or not. */
  datatype Gaps = Gaps(sweep: seq<Stmt>, select: seq<Stmt>, insert: seq<Stmt>)

  function Answered(fs: seq<Flight>, key: FlightKey, w: Workflow): Answer
    requires Taken(fs, key)
  {
    var i := Holder(fs, key);
    Got(if fs[i].workflow == w then Acquired else Joined, i)
  }

  /** acquireOrJoinDecisionFlight: a failed INSERT re-reads the winner and throws if it is gone. */
  function AcquireOrJoin(fs: seq<Flight>, key: FlightKey, w: Workflow, expires: Option<int>, now: int,
                         created: int, gaps: Gaps): (seq<Flight>, Answer)
  {
    var selected := AtSelect(fs, key, now, gaps);
    if Taken(selected, key) then (selected, Answered(selected, key, w))
    else
      var raced := Run(selected, gaps.select);
      if !Taken(raced, key) then
        (Run(Apply(raced, Insert(key, w, created, expires)), gaps.insert), Got(Acquired, |raced|))
      else
        var reread := Run(raced, gaps.insert);
        (reread, if Taken(reread, key) then Answered(reread, key, w) else Threw)
  }

  /** What the call's first SELECT reads, and the state its INSERT meets. */
  function AtSelect(fs: seq<Flight>, key: FlightKey, now: int, gaps: Gaps): seq<Flight> {
    Run(Apply(fs, ExpireKey(key, now)), gaps.sweep)
  }

  function AtInsert(fs: seq<Flight>, key: FlightKey, now: int, gaps: Gaps): seq<Flight> {
    Run(AtSelect(fs, key, now, gaps), gaps.select)
  }

  function Holder(fs: seq<Flight>, key: FlightKey): (i: nat)
    requires Taken(fs, key)
    ensures i < |fs| && HoldsKey(fs[i], key)
  {
    if HoldsKey(fs[0], key) then 0 else 1 + Holder(fs[1..], key)
  }

  datatype Denial =
    | FlightRequired | WorkflowCancelled | WorkflowExpired | WorkflowNotActive | BindingRequired
    | SubjectMismatch | RoutineMismatch | StageMismatch

  datatype Verdict = Allowed(engaged: bool) | Refused(why: Denial)

  /** `i` is a row ORDER BY created_at DESC LIMIT 1 may return for the workflow. */
  ghost predicate Latest(fs: seq<Flight>, w: Workflow, i: nat) {
    && i < |fs| && fs[i].workflow == w
    && forall j | 0 <= j < |fs| && fs[j].workflow == w :: fs[j].created <= fs[i].created
  }

  /** What the fence says about the row it read; an empty string is a binding that was not given. */
  function JudgeRow(f: Flight, binding: FlightKey, required: bool): Verdict {
    match f.status
    case Cancelled => Refused(WorkflowCancelled)
    case Expired => Refused(WorkflowExpired)
    case Finished => Refused(WorkflowNotActive)
    case Active =>
      if required && (binding.subject == "" || binding.routine == "" || binding.stage == "") then Refused(BindingRequired)
      else if binding.subject != "" && f.key.subject != binding.subject then Refused(SubjectMismatch)
      else if binding.routine != "" && f.key.routine != binding.routine then Refused(RoutineMismatch)
      else if binding.stage != "" && f.key.stage != binding.stage then Refused(StageMismatch)
      else Allowed(true)
  }

  /** `row` is the row the fence's SELECT returned after its expiry sweep. */
  ghost predicate FenceReads(fs: seq<Flight>, w: Workflow, now: int, row: Option<nat>) {
    var swept := Apply(fs, ExpireWorkflow(w, now));
    if row.Some? then Latest(swept, w, row.value) else forall f | f in swept :: f.workflow != w
  }

  function Fence(fs: seq<Flight>, w: Workflow, binding: FlightKey, required: bool, now: int, row: Option<nat>): Verdict {
    var swept := Apply(fs, ExpireWorkflow(w, now));
    if row.Some? && row.value < |swept| then JudgeRow(swept[row.value], binding, required)
    else if required then Refused(FlightRequired)
    else Allowed(false)
  }

  /** The workflow passes the required-flight fence for the key in this state. */
  ghost predicate Passes(fs: seq<Flight>, w: Workflow, key: FlightKey, now: int) {
    exists row: Option<nat> :: FenceReads(fs, w, now, row) && Fence(fs, w, key, true, now, row).Allowed?
  }

  class Flights {
    var rows: seq<Flight>

    constructor ()
      ensures rows == []
    {
      rows := [];
    }

    method Execute(s: Stmt)
      modifies this
      ensures rows == Apply(old(rows), s)
    {
      rows := Apply(rows, s);
    }

    /** Other workers' statements. */
    method Others(ss: seq<Stmt>)
      modifies this
      ensures rows == Run(old(rows), ss)
    {
      for i := 0 to |ss|
        invariant rows == Run(old(rows), ss[..i])
      {
        assert ss[..i + 1][..i] == ss[..i];
        Execute(ss[i]);
      }
      assert ss[..|ss|] == ss;
    }

    method AcquireOrJoinDecisionFlight(key: FlightKey, w: Workflow, expires: Option<int>, now: int,
                                       created: int, gaps: Gaps)
      returns (answer: Answer)
      modifies this
      ensures (rows, answer) == AcquireOrJoin(old(rows), key, w, expires, now, created, gaps)
    {
      Execute(ExpireKey(key, now));
      Others(gaps.sweep);
      if Taken(rows, key) {
        return Answered(rows, key, w);
      }
      Others(gaps.select);
      if !Taken(rows, key) {
        answer := Got(Acquired, |rows|);
        Execute(Insert(key, w, created, expires));
        Others(gaps.insert);
      } else {
        Others(gaps.insert);
        answer := if Taken(rows, key) then Answered(rows, key, w) else Threw;
      }
    }

    /** assertWorkflowMayCommitEffect: the sweep is kept, the latest row decides. */
    method AssertWorkflowMayCommitEffect(w: Workflow, binding: FlightKey, required: bool, now: int)
      returns (v: Verdict, row: Option<nat>)
      modifies this
      ensures rows == Apply(old(rows), ExpireWorkflow(w, now))
      ensures FenceReads(old(rows), w, now, row) && v == Fence(old(rows), w, binding, required, now, row)
    {
      Execute(ExpireWorkflow(w, now));
      row := None;
      for i := 0 to |rows|
        invariant row.Some? ==> row.value < i && rows[row.value].workflow == w
        invariant row.Some? ==> forall j | 0 <= j < i && rows[j].workflow == w :: rows[j].created <= rows[row.value].created
        invariant row.None? ==> forall j | 0 <= j < i :: rows[j].workflow != w
      {
        if rows[i].workflow == w && (row.None? || rows[row.value].created < rows[i].created) {
          row := Some(i);
        }
      }
      if row.Some? {
        v := JudgeRow(rows[row.value], binding, required);
      } else {
        v := if required then Refused(FlightRequired) else Allowed(false);
      }
    }
  }

  // ----- every run -----

  ghost predicate OneActive(fs: seq<Flight>) {
    forall i, j | 0 <= i < |fs| && 0 <= j < |fs| && fs[i].status.Active? && fs[j].status.Active? && fs[i].key == fs[j].key :: i == j
  }

  lemma ApplyKeepsOneActive(fs: seq<Flight>, s: Stmt)
    requires OneActive(fs)
    ensures OneActive(Apply(fs, s))
  {
    var gs := Apply(fs, s);
    forall i, j | 0 <= i < |gs| && 0 <= j < |gs| && gs[i].status.Active? && gs[j].status.Active? && gs[i].key == gs[j].key
      ensures i == j
    {
      if i < |fs| && j < |fs| {
      } else if i < |fs| {
        assert HoldsKey(fs[i], s.key);
      } else if j < |fs| {
        assert HoldsKey(fs[j], s.key);
      }
    }
  }

  lemma {:induction false} RunKeepsOneActive(fs: seq<Flight>, ss: seq<Stmt>)
    requires OneActive(fs)
    ensures OneActive(Run(fs, ss))
    decreases |ss|
  {
    if ss != [] {
      RunKeepsOneActive(fs, ss[..|ss| - 1]);
      ApplyKeepsOneActive(Run(fs, ss[..|ss| - 1]), ss[|ss| - 1]);
    }
  }

  /** At most one ACTIVE flight per key in every reachable state. */
  lemma AtMostOneActive(ss: seq<Stmt>)
    ensures OneActive(Run([], ss))
  {
    RunKeepsOneActive([], ss);
  }

  /** A flight keeps its identity, and once finished, cancelled or expired it stays exactly as it is. */
  lemma {:induction false} FinishedForever(fs: seq<Flight>, ss: seq<Stmt>, i: nat)
    requires i < |fs|
    ensures i < |Run(fs, ss)| && Run(fs, ss)[i] == fs[i].(status := Run(fs, ss)[i].status)
    ensures !fs[i].status.Active? ==> Run(fs, ss)[i] == fs[i]
    decreases |ss|
  {
    if ss != [] {
      FinishedForever(fs, ss[..|ss| - 1], i);
    }
  }

  /** Passing the required fence means holding the one unexpired ACTIVE row of the key. */
  lemma PassingHoldsTheKey(fs: seq<Flight>, w: Workflow, key: FlightKey, now: int) returns (i: nat)
    requires Passes(fs, w, key, now)
    ensures i < |fs| && HoldsKey(fs[i], key) && fs[i].workflow == w && !Overdue(fs[i], now)
  {
    var row: Option<nat> :| FenceReads(fs, w, now, row) && Fence(fs, w, key, true, now, row).Allowed?;
    i := row.value;
    var swept := Apply(fs, ExpireWorkflow(w, now));
    assert swept[i] == Touch(fs[i], ExpireWorkflow(w, now));
    assert swept[i].key == key;
  }

  /** A binding agrees with the flight's key: what is given matches, and nothing may be missing if required. */
  predicate Agrees(given: string, actual: string, required: bool) {
    if given == "" then !required else given == actual
  }

  /** What the fence lets through, with or without a required flight: no flight of the workflow at all, if none
      is required; or a latest flight of the workflow that is ACTIVE, not overdue and agrees with the bindings. */
  lemma AllowedExactlyWhen(fs: seq<Flight>, w: Workflow, binding: FlightKey, required: bool, now: int, row: Option<nat>)
    requires FenceReads(fs, w, now, row)
    ensures Fence(fs, w, binding, required, now, row).Allowed? <==>
      if row.None? then !required && forall f | f in fs :: f.workflow != w
      else
        && Latest(fs, w, row.value) && fs[row.value].status.Active? && !(fs[row.value].expires.Some? && fs[row.value].expires.value < now)
        && Agrees(binding.subject, fs[row.value].key.subject, required)
        && Agrees(binding.routine, fs[row.value].key.routine, required)
        && Agrees(binding.stage, fs[row.value].key.stage, required)
  {
    var swept := Apply(fs, ExpireWorkflow(w, now));
    assert |swept| == |fs| && forall i | 0 <= i < |fs| :: swept[i] == Touch(fs[i], ExpireWorkflow(w, now));
    if row.None? {
      forall f | f in fs ensures f.workflow != w {
        var i :| 0 <= i < |fs| && fs[i] == f;
        assert swept[i] in swept;
      }
    } else {
      assert Latest(fs, w, row.value) by { assert forall j | 0 <= j < |fs| :: swept[j].created == fs[j].created && swept[j].workflow == fs[j].workflow; }
      assert swept[row.value] == Touch(fs[row.value], ExpireWorkflow(w, now));
    }
  }

  /** The required fence lets a workflow through exactly when all three bindings are given and a latest
      flight of the workflow is ACTIVE, not overdue and the one for that key. */
  lemma PassesExactlyWhen(fs: seq<Flight>, w: Workflow, key: FlightKey, now: int)
    ensures Passes(fs, w, key, now) <==>
      && key.subject != "" && key.routine != "" && key.stage != ""
      && exists i: nat :: Latest(fs, w, i) && HoldsKey(fs[i], key) && !(fs[i].expires.Some? && fs[i].expires.value < now)
  {
    if Passes(fs, w, key, now) {
      var row: Option<nat> :| FenceReads(fs, w, now, row) && Fence(fs, w, key, true, now, row).Allowed?;
      AllowedExactlyWhen(fs, w, key, true, now, row);
    }
    if i: nat :| Latest(fs, w, i) && HoldsKey(fs[i], key) && !(fs[i].expires.Some? && fs[i].expires.value < now) {
      assert FenceReads(fs, w, now, Some(i)) by {
        var swept := Apply(fs, ExpireWorkflow(w, now));
        assert |swept| == |fs| && forall j | 0 <= j < |fs| :: swept[j] == Touch(fs[j], ExpireWorkflow(w, now));
      }
      AllowedExactlyWhen(fs, w, key, true, now, Some(i));
    }
  }

  /** Two different workflows never both pass the required fence for the same key in one state. */
  lemma FenceIsExclusive(ss: seq<Stmt>, w1: Workflow, w2: Workflow, key: FlightKey, now1: int, now2: int)
    requires Passes(Run([], ss), w1, key, now1) && Passes(Run([], ss), w2, key, now2)
    ensures w1 == w2
  {
    AtMostOneActive(ss);
    var i := PassingHoldsTheKey(Run([], ss), w1, key, now1);
    var j := PassingHoldsTheKey(Run([], ss), w2, key, now2);
  }

  /** If another workflow passes the fence for the key after more statements, the flight the first one
      passed with has ended, and can never carry an effect again. */
  lemma HandoverEndsTheFlight(fs: seq<Flight>, ss: seq<Stmt>, w1: Workflow, w2: Workflow, key: FlightKey, now1: int, now2: int)
    returns (i: nat)
    requires OneActive(fs) && w1 != w2 && Passes(fs, w1, key, now1) && Passes(Run(fs, ss), w2, key, now2)
    ensures i < |fs| && HoldsKey(fs[i], key) && fs[i].workflow == w1
    ensures i < |Run(fs, ss)| && !Run(fs, ss)[i].status.Active?
  {
    i := PassingHoldsTheKey(fs, w1, key, now1);
    FinishedForever(fs, ss, i);
    RunKeepsOneActive(fs, ss);
    var j := PassingHoldsTheKey(Run(fs, ss), w2, key, now2);
  }

  // ----- what ends a flight -----

  /** The statement ends this flight while it is ACTIVE. */
  predicate Ends(f: Flight, s: Stmt) {
    match s
    case Cancel(w) => w == f.workflow
    case Complete(w) => w == f.workflow
    case ExpireKey(key, now) => key == f.key && f.expires.Some? && f.expires.value < now
    case ExpireWorkflow(w, now) => w == f.workflow && f.expires.Some? && f.expires.value < now
    case Insert(_, _, _, _) => false
  }

  /** The status it ends with: cancelled by a cancellation, finished by a completion, expired by a sweep. */
  function EndStatus(s: Stmt): FlightStatus {
    if s.Cancel? then Cancelled else if s.Complete? then Finished else Expired
  }

  ghost predicate Survives(f: Flight, ss: seq<Stmt>) {
    forall k | 0 <= k < |ss| :: !Ends(f, ss[k])
  }

  /** An ACTIVE flight is still ACTIVE after more statements exactly when none of them cancels or completes
      its workflow or sweeps its key or workflow past its expiry. */
  lemma {:induction false} ActiveExactlyWhen(fs: seq<Flight>, ss: seq<Stmt>, i: nat)
    requires i < |fs| && fs[i].status.Active?
    ensures i < |Run(fs, ss)| && (Run(fs, ss)[i].status.Active? <==> Survives(fs[i], ss))
    decreases |ss|
  {
    FinishedForever(fs, ss, i);
    if ss != [] {
      var init, last := ss[..|ss| - 1], ss[|ss| - 1];
      ActiveExactlyWhen(fs, init, i);
      FinishedForever(fs, init, i);
      assert Survives(fs[i], ss) <==> Survives(fs[i], init) && !Ends(fs[i], last);
    }
  }

  /** An ACTIVE flight that is not ACTIVE any more was ended by one of the statements, and carries its status. */
  lemma {:induction false} EndedBy(fs: seq<Flight>, ss: seq<Stmt>, i: nat) returns (k: nat)
    requires i < |fs| && fs[i].status.Active? && i < |Run(fs, ss)| && !Run(fs, ss)[i].status.Active?
    ensures k < |ss| && Ends(fs[i], ss[k]) && Run(fs, ss)[i] == fs[i].(status := EndStatus(ss[k]))
    decreases |ss|
  {
    var init, last := ss[..|ss| - 1], ss[|ss| - 1];
    FinishedForever(fs, init, i);
    if Run(fs, init)[i].status.Active? {
      k := |ss| - 1;
    } else {
      k := EndedBy(fs, init, i);
    }
  }

  /** Why the fence refuses: no flight where one is required; else the latest flight's status if it has ended; else a
      binding that is missing though required, or the first one that does not match. */
  lemma RefusedExactlyWhen(fs: seq<Flight>, w: Workflow, binding: FlightKey, required: bool, now: int, row: Option<nat>)
    requires FenceReads(fs, w, now, row)
    ensures var v := Fence(fs, w, binding, required, now, row);
      if row.None? then v == (if required then Refused(FlightRequired) else Allowed(false))
      else
        var f := Apply(fs, ExpireWorkflow(w, now))[row.value];
        var missing := required && (binding.subject == "" || binding.routine == "" || binding.stage == "");
        && (v == Refused(WorkflowCancelled) <==> f.status.Cancelled?) && (v == Refused(WorkflowExpired) <==> f.status.Expired?)
        && (v == Refused(WorkflowNotActive) <==> f.status.Finished?) && (v == Refused(BindingRequired) <==> f.status.Active? && missing)
        && (v == Refused(SubjectMismatch) <==> f.status.Active? && !missing && !Agrees(binding.subject, f.key.subject, required))
        && (v == Refused(RoutineMismatch) <==>
              f.status.Active? && !missing && Agrees(binding.subject, f.key.subject, required) && !Agrees(binding.routine, f.key.routine, required))
        && v != Refused(FlightRequired) && v != Allowed(false)
  {
  }

  /** The fence and the commit are separate statements: after every pass a cancellation lets any other workflow
      fly the key and pass the fence too, before the first one commits. */
  lemma CancelledBeforeItsCommit(fs: seq<Flight>, w: Workflow, other: Workflow, key: FlightKey, now: int, created: int, at: int)
    requires OneActive(fs) && Passes(fs, w, key, now) && other != w
    requires forall f | f in fs && f.workflow == other :: f.created <= created
    ensures var after := Apply(Apply(fs, Cancel(w)), Insert(key, other, created, None));
      Passes(after, other, key, at) && !Passes(after, w, key, at)
  {
    var i := PassingHoldsTheKey(fs, w, key, now);
    PassesExactlyWhen(fs, w, key, now);
    var cancelled := Apply(fs, Cancel(w));
    forall f | f in cancelled ensures !HoldsKey(f, key) {
      var j :| 0 <= j < |cancelled| && cancelled[j] == f;
      assert cancelled[j] == Touch(fs[j], Cancel(w));
    }
    Inserted(cancelled, key, other, created, at);
    var after := Apply(cancelled, Insert(key, other, created, None));
    ApplyKeepsOneActive(fs, Cancel(w));
    ApplyKeepsOneActive(cancelled, Insert(key, other, created, None));
    OnlyTheHolderPasses(after, |cancelled|, w, key, at);
  }

  /** A fresh flight of a workflow whose flights are all older lets it pass. */
  lemma Inserted(fs: seq<Flight>, key: FlightKey, w: Workflow, created: int, at: int)
    requires !Taken(fs, key) && key.subject != "" && key.routine != "" && key.stage != ""
    requires forall f | f in fs && f.workflow == w :: f.created <= created
    ensures var after := Apply(fs, Insert(key, w, created, None));
      Passes(after, w, key, at) && |after| == |fs| + 1 && after[|fs|] == Flight(key, w, Active, created, None)
  {
    var after := Apply(fs, Insert(key, w, created, None));
    assert after == fs + [Flight(key, w, Active, created, None)];
    assert Latest(after, w, |fs|);
    PassesExactlyWhen(after, w, key, at);
  }

  // ----- acquire or join -----

  lemma StaysUntaken(fs: seq<Flight>, ss: seq<Stmt>, key: FlightKey)
    requires !Taken(fs, key)
    ensures forall j | 0 <= j < |fs| && j < |Run(fs, ss)| :: !HoldsKey(Run(fs, ss)[j], key)
  {
    forall j | 0 <= j < |fs| && j < |Run(fs, ss)| ensures !HoldsKey(Run(fs, ss)[j], key) {
      FinishedForever(fs, ss, j);
      assert fs[j] in fs;
    }
  }

  /** The call throws exactly when a flight that was not there at its SELECT held the key at its INSERT, and
      no flight holds it any more when the call looks again. */
  lemma ThrowsExactlyWhen(fs: seq<Flight>, key: FlightKey, w: Workflow, expires: Option<int>, now: int, created: int, gaps: Gaps)
    ensures AcquireOrJoin(fs, key, w, expires, now, created, gaps).1.Threw? <==>
      var selected, raced := AtSelect(fs, key, now, gaps), AtInsert(fs, key, now, gaps);
      && !Taken(selected, key)
      && (exists i | |selected| <= i < |raced| :: HoldsKey(raced[i], key) && !Survives(raced[i], gaps.insert))
      && !Taken(Run(raced, gaps.insert), key)
  {
    var selected, raced := AtSelect(fs, key, now, gaps), AtInsert(fs, key, now, gaps);
    if !Taken(selected, key) && Taken(raced, key) {
      StaysUntaken(selected, gaps.select, key);
      var i := Holder(raced, key);
      assert i >= |selected|;
      ActiveExactlyWhen(raced, gaps.insert, i);
      FinishedForever(raced, gaps.insert, i);
      if Survives(raced[i], gaps.insert) { assert Run(raced, gaps.insert)[i] in Run(raced, gaps.insert); }
    }
  }

  /** Whatever others do between its statements, acquire-or-join that does not throw answers with a flight of
      the key: the only one that can be ACTIVE for it, unless others ended the caller's fresh flight before
      it was read back. It says `acquired` exactly when that flight is the caller's, and a caller that only
      joined cannot pass the required fence for the key. */
  lemma AcquireGivesTheOneFlight(ss: seq<Stmt>, key: FlightKey, w: Workflow, expires: Option<int>, now: int,
                                 created: int, gaps: Gaps, at: int)
    ensures var (fs, answer) := AcquireOrJoin(Run([], ss), key, w, expires, now, created, gaps);
      && OneActive(fs)
      && (answer.Got? ==>
            && answer.flight < |fs| && fs[answer.flight].key == key
            && (answer.mode == Acquired <==> fs[answer.flight].workflow == w)
            && (HoldsKey(fs[answer.flight], key) || (answer.mode == Acquired && !Survives(fs[answer.flight], gaps.insert)))
            && (answer.mode == Joined ==> !Passes(fs, w, key, at)))
  {
    AtMostOneActive(ss);
    ApplyKeepsOneActive(Run([], ss), ExpireKey(key, now));
    AcquireKeepsOneActive(Apply(Run([], ss), ExpireKey(key, now)), key, w, expires, created, gaps);
    var raced := AtInsert(Run([], ss), key, now, gaps);
    var (fs, answer) := AcquireOrJoin(Run([], ss), key, w, expires, now, created, gaps);
    if !Taken(AtSelect(Run([], ss), key, now, gaps), key) && !Taken(raced, key) {
      var flown := Apply(raced, Insert(key, w, created, expires));
      ActiveExactlyWhen(flown, gaps.insert, |raced|);
      FinishedForever(flown, gaps.insert, |raced|);
      SurvivesAlike(flown[|raced|], fs[|raced|], gaps.insert);
    }
    if answer.Got? && answer.mode == Joined { OnlyTheHolderPasses(fs, answer.flight, w, key, at); }
  }

  lemma SurvivesAlike(f: Flight, g: Flight, ss: seq<Stmt>)
    requires g == f.(status := g.status)
    ensures Survives(f, ss) <==> Survives(g, ss)
  {
    assert forall s :: Ends(f, s) <==> Ends(g, s);
  }

  lemma AcquireKeepsOneActive(swept: seq<Flight>, key: FlightKey, w: Workflow, expires: Option<int>, created: int, gaps: Gaps)
    requires OneActive(swept)
    ensures var selected := Run(swept, gaps.sweep);
      var raced := Run(selected, gaps.select);
      && OneActive(selected) && OneActive(raced) && OneActive(Run(raced, gaps.insert))
      && OneActive(Run(Apply(raced, Insert(key, w, created, expires)), gaps.insert))
  {
    var selected := Run(swept, gaps.sweep);
    var raced := Run(selected, gaps.select);
    RunKeepsOneActive(swept, gaps.sweep);
    RunKeepsOneActive(selected, gaps.select);
    RunKeepsOneActive(raced, gaps.insert);
    ApplyKeepsOneActive(raced, Insert(key, w, created, expires));
    RunKeepsOneActive(Apply(raced, Insert(key, w, created, expires)), gaps.insert);
  }

  lemma OnlyTheHolderPasses(fs: seq<Flight>, i: nat, w: Workflow, key: FlightKey, at: int)
    requires OneActive(fs) && i < |fs| && HoldsKey(fs[i], key) && fs[i].workflow != w
    ensures !Passes(fs, w, key, at)
  {
    if Passes(fs, w, key, at) {
      var j := PassingHoldsTheKey(fs, w, key, at);
      assert false;
    }
  }
}
