/**
 The coding runs of one owner task: which run is current, launching a worker, and the bounded repair
 policy. Worker, clock and the runs of other tasks are inputs.
 */
module BuilderRuns {
  import opened Wrappers

  datatype RunStatus = RunPending | RunLaunched | RunRunning | RunSucceeded | RunFailed | RunCancelled | RunStale

  /** A run's status and its started_at / ended_at, None when absent. */
  datatype RunRow = RunRow(status: RunStatus, started: Option<int>, ended: Option<int>)

  const NEW_RUN: RunRow := RunRow(RunPending, None, None)

  predicate Active(s: RunStatus) {
    s.RunPending? || s.RunLaunched? || s.RunRunning?
  }

  datatype ProviderStatus =
    ProviderCreating | ProviderLaunched | ProviderRunning | ProviderFinished | ProviderError | ProviderTimeout
    | ProviderExpired | ProviderCancelled | ProviderOther

  /** A provider's status is never mapped back to PENDING, and an unknown one counts as running. */
  function MapProviderStatus(p: ProviderStatus): RunStatus {
    match p
    case ProviderCreating => RunLaunched
    case ProviderLaunched => RunLaunched
    case ProviderRunning => RunRunning
    case ProviderFinished => RunSucceeded
    case ProviderError => RunFailed
    case ProviderTimeout => RunFailed
    case ProviderExpired => RunFailed
    case ProviderCancelled => RunCancelled
    case ProviderOther => RunRunning
  }

  /** What one run contributes to the runtime budget. */
  function Spent(r: RunRow, now: int): nat {
    if r.started.None? then 0
    else
      var end := if r.ended.Some? then r.ended.value else now;
      if end >= r.started.value then end - r.started.value else 0
  }

  function TotalSpent(runs: seq<RunRow>, now: int): nat {
    if runs == [] then 0 else TotalSpent(runs[..|runs| - 1], now) + Spent(runs[|runs| - 1], now)
  }

  method ElapsedRuntimeMsFromRuns(runs: seq<RunRow>, now: int) returns (total: nat)
    ensures total == TotalSpent(runs, now)
  {
    total := 0;
    for i := 0 to |runs|
      invariant total == TotalSpent(runs[..i], now)
    {
      assert runs[..i + 1][..i] == runs[..i];
      var run := runs[i];
      if run.started.Some? {
        var end := if run.ended.Some? then run.ended.value else now;
        if end >= run.started.value {
          total := total + (end - run.started.value);
        }
      }
    }
    assert runs[..|runs|] == runs;
  }

  datatype Policy = Policy(maxAttempts: int, maxRuntimeMs: int)

  /** Defaults for fields the task leaves out. */
  function ResolveRetryPolicy(maxAttempts: Option<int>, maxRuntimeMs: Option<int>): Policy {
    Policy(if maxAttempts.None? then 2 else maxAttempts.value,
           if maxRuntimeMs.None? then 30 * 60 * 1000 else maxRuntimeMs.value)
  }

  datatype Repair = Allowed | NonRetryable | AttemptCap | RuntimeCap

  /** The repair policy, from the runs as they are. */
  function RepairVerdict(runs: seq<RunRow>, policy: Policy, retryable: bool, now: int): Repair {
    if !retryable then NonRetryable
    else if |runs| >= policy.maxAttempts then AttemptCap
    else if TotalSpent(runs, now) >= policy.maxRuntimeMs then RuntimeCap
    else Allowed
  }

  datatype Launch = LaunchRefused | LaunchThrew | LaunchMismatched | Launched(status: ProviderStatus, providerId: bool)

  class Runs {
    var runs: seq<RunRow>
    var current: Option<nat>

    /** The pointer is in range and only the newest run can be active. */
    ghost predicate Valid()
      reads this
    {
      && (current.Some? ==> current.value < |runs|)
      && forall i | 0 <= i < |runs| - 1 :: !Active(runs[i].status)
    }

    constructor ()
      ensures Valid() && runs == [] && current == None
    {
      runs, current := [], None;
    }

    method GetCurrentCodingRun() returns (r: Option<nat>)
      requires Valid()
      modifies this`current
      ensures Valid() && r == current
      ensures r.Some? ==> r.value == |runs| - 1 && Active(runs[r.value].status)
      ensures r.None? ==> runs == [] || !Active(runs[|runs| - 1].status)
    {
      if current.Some? {
        if Active(runs[current.value].status) {
          return current;
        }
        current := None;
      }
      if runs != [] && Active(runs[|runs| - 1].status) {
        current := Some(|runs| - 1);
      }
      r := current;
    }

    /** Launch on the PENDING run, or on a new run when none is active; `now` stamps what changes. */
    method LaunchWorker(launch: Launch, now: int) returns (launched: bool, ok: bool)
      requires Valid()
      modifies this
      ensures Valid()
      ensures launched <==> !launch.LaunchRefused? && !Busy(old(runs))
      ensures ok <==> launched && launch.Launched? && launch.providerId
      ensures runs == if launched then AfterLaunch(old(runs), launch, now) else old(runs)
      ensures launched ==> current == if launch.Launched? then Some(|runs| - 1) else None
      // the PENDING run is used, or else one new run: failed, stale, or started now with the provider's status
      ensures launched ==>
        var pending := old(runs) != [] && old(runs)[|old(runs)| - 1].status.RunPending?;
        var before := if pending then old(runs) else old(runs) + [RunRow(RunPending, None, None)];
        var was := before[|before| - 1];
        && |runs| == |before| && runs[..|runs| - 1] == before[..|runs| - 1]
        && runs[|runs| - 1] == match launch
             case LaunchThrew => was.(status := RunFailed, ended := Some(now))
             case LaunchMismatched => was.(status := RunStale, ended := Some(now))
             case Launched(status, _) => was.(status := MapProviderStatus(status), started := Some(now))
             case LaunchRefused => was
    {
      launched, ok := false, false;
      if launch.LaunchRefused? {
        return;
      }
      var cur := GetCurrentCodingRun();
      if cur.Some? && !runs[cur.value].status.RunPending? {
        return;                                  // ACTIVE_WORKER_EXISTS
      }
      if cur.None? {
        runs := runs + [NEW_RUN];
      }
      launched := true;
      var k := |runs| - 1;
      current := Some(k);
      match launch
      case LaunchRefused =>
      case LaunchThrew =>
        runs := runs[k := runs[k].(status := RunFailed, ended := Some(now))];
        current := None;
      case LaunchMismatched =>
        runs := runs[k := runs[k].(status := RunStale, ended := Some(now))];
        current := None;
      case Launched(status, providerId) =>
        runs := runs[k := runs[k].(status := MapProviderStatus(status), started := Some(now))];
        ok := providerId;
    }

    /** The provider's last word on the newest run; CANCELLED and STALE are sticky. */
    method Observe(status: ProviderStatus, now: int) returns (settled: RunStatus)
      requires Valid() && runs != []
      modifies this
      ensures Valid() && runs == AfterObserve(old(runs), status, now)
      ensures settled == runs[|runs| - 1].status
      ensures var was, r := old(runs)[|runs| - 1], runs[|runs| - 1];
        && |runs| == |old(runs)| && runs[..|runs| - 1] == old(runs)[..|runs| - 1] && r.started == was.started
        && (if was.status in {RunCancelled, RunStale} then settled == was.status else settled == MapProviderStatus(status))
        && r.ended == if settled in {RunPending, RunLaunched, RunRunning} then None else if was.ended.Some? then was.ended else Some(now)
      ensures current == if !Active(settled) && old(current) == Some(|runs| - 1) then None else old(current)
    {
      var k := |runs| - 1;
      settled := if Sticky(runs[k].status) then runs[k].status else MapProviderStatus(status);
      var ended := if Active(settled) then None else if runs[k].ended.Some? then runs[k].ended else Some(now);
      runs := runs[k := runs[k].(status := settled, ended := ended)];
      if !Active(settled) && current == Some(k) {
        current := None;
      }
    }

    /** Refuse, or close the active run and mint one fresh PENDING run as the current one. */
    method BeginRepairAttempt(policy: Policy, retryable: bool, now: int) returns (r: Repair)
      requires Valid()
      modifies this
      ensures Valid() && r == RepairVerdict(old(runs), policy, retryable, now)
      ensures r.Allowed? <==> retryable && |old(runs)| < policy.maxAttempts && TotalSpent(old(runs), now) < policy.maxRuntimeMs
      ensures r.NonRetryable? <==> !retryable
      ensures r.AttemptCap? <==> retryable && |old(runs)| >= policy.maxAttempts
      ensures runs == if r.Allowed? then AfterRepair(old(runs), now) else old(runs)
      ensures r.Allowed? ==>
        && |runs| == |old(runs)| + 1 && runs[|runs| - 1] == RunRow(RunPending, None, None)
        && forall i | 0 <= i < |old(runs)| :: runs[i] ==
             if old(runs)[i].status in {RunPending, RunLaunched, RunRunning} then old(runs)[i].(status := RunFailed, ended := Some(now)) else old(runs)[i]
      ensures current == if r.Allowed? then Some(|runs| - 1) else old(current)
    {
      if !retryable {
        return NonRetryable;
      }
      if |runs| >= policy.maxAttempts {
        return AttemptCap;
      }
      var spent := ElapsedRuntimeMsFromRuns(runs, now);
      if spent >= policy.maxRuntimeMs {
        return RuntimeCap;
      }
      var cur := GetCurrentCodingRun();
      if cur.Some? {
        runs := runs[cur.value := runs[cur.value].(status := RunFailed, ended := Some(now))];
        current := None;
      }
      runs := runs + [NEW_RUN];
      current := Some(|runs| - 1);
      r := Allowed;
    }
  }

  predicate Sticky(s: RunStatus) {
    s.RunCancelled? || s.RunStale?
  }

  /** The newest run after an observation: an end time is set once and cleared while the run is active. */
  function Observed(r: RunRow, status: ProviderStatus, now: int): RunRow {
    var settled := if Sticky(r.status) then r.status else MapProviderStatus(status);
    RunRow(settled, r.started, if Active(settled) then None else if r.ended.Some? then r.ended else Some(now))
  }

  function AfterObserve(runs: seq<RunRow>, status: ProviderStatus, now: int): seq<RunRow> {
    if runs == [] then runs else runs[|runs| - 1 := Observed(runs[|runs| - 1], status, now)]
  }

  /** The active run closed, and one fresh PENDING run. */
  function AfterRepair(runs: seq<RunRow>, now: int): seq<RunRow> {
    var k := |runs| - 1;
    (if runs != [] && Active(runs[k].status) then runs[k := runs[k].(status := RunFailed, ended := Some(now))] else runs) + [NEW_RUN]
  }

  /** The runs after a launch: the PENDING run is used, or else one new run. */
  function AfterLaunch(runs: seq<RunRow>, launch: Launch, now: int): seq<RunRow> {
    var base := if Reusable(runs) then runs else runs + [NEW_RUN];
    var k := |base| - 1;
    match launch
    case LaunchRefused => base
    case LaunchThrew => base[k := base[k].(status := RunFailed, ended := Some(now))]
    case LaunchMismatched => base[k := base[k].(status := RunStale, ended := Some(now))]
    case Launched(status, _) => base[k := base[k].(status := MapProviderStatus(status), started := Some(now))]
  }

  predicate Reusable(runs: seq<RunRow>) {
    runs != [] && runs[|runs| - 1].status.RunPending?
  }

  predicate Busy(runs: seq<RunRow>) {
    runs != [] && Active(runs[|runs| - 1].status) && !runs[|runs| - 1].status.RunPending?
  }

  /** What a provider's status is taken to mean; an unknown one counts as running. */
  lemma ProviderStatusMeans(p: ProviderStatus)
    ensures var s := MapProviderStatus(p);
      && (s.RunLaunched? <==> p.ProviderCreating? || p.ProviderLaunched?) && (s.RunRunning? <==> p.ProviderRunning? || p.ProviderOther?)
      && (s.RunSucceeded? <==> p.ProviderFinished?) && (s.RunCancelled? <==> p.ProviderCancelled?)
      && (s.RunFailed? <==> p.ProviderError? || p.ProviderTimeout? || p.ProviderExpired?)
  {
  }

  /** A task's budget is the sum over its runs, and one run costs the time from its start to its end, or to now, and
      nothing if it never started or ends before it starts. */
  lemma {:induction false} TotalAdds(a: seq<RunRow>, b: seq<RunRow>, now: int)
    ensures TotalSpent(a + b, now) == TotalSpent(a, now) + TotalSpent(b, now)
    decreases |b|
  {
    if b == [] {
      assert a + b == a;
    } else {
      TotalAdds(a, b[..|b| - 1], now);
      assert (a + b)[..|a + b| - 1] == a + b[..|b| - 1];
    }
  }

  lemma OneRunCosts(r: RunRow, now: int)
    ensures TotalSpent([], now) == 0
    ensures TotalSpent([r], now) ==
      if r.started.Some? && r.started.value <= (if r.ended.Some? then r.ended.value else now)
      then (if r.ended.Some? then r.ended.value else now) - r.started.value else 0
  {
    assert [r][..0] == [];
  }

  /** Two attempts and thirty minutes, unless the task says otherwise. */
  lemma DefaultPolicy(attempts: Option<int>, runtime: Option<int>)
    ensures attempts.Some? ==> ResolveRetryPolicy(attempts, runtime).maxAttempts == attempts.value
    ensures runtime.Some? ==> ResolveRetryPolicy(attempts, runtime).maxRuntimeMs == runtime.value
    ensures attempts.None? ==> ResolveRetryPolicy(attempts, runtime).maxAttempts == 2
    ensures runtime.None? ==> ResolveRetryPolicy(attempts, runtime).maxRuntimeMs == 1800000
  {
  }

  /** Closing a run at `now` costs the budget nothing extra: the total is what it was at `now`. */
  lemma {:induction false} ClosingKeepsTheTotal(runs: seq<RunRow>, k: nat, now: int)
    requires k < |runs| && runs[k].ended.None?
    ensures TotalSpent(runs[k := runs[k].(status := RunFailed, ended := Some(now))], now) == TotalSpent(runs, now)
    decreases |runs|
  {
    var closed := runs[k := runs[k].(status := RunFailed, ended := Some(now))];
    if k < |runs| - 1 {
      assert closed[..|runs| - 1] == runs[..|runs| - 1][k := closed[k]];
      ClosingKeepsTheTotal(runs[..|runs| - 1], k, now);
    } else {
      assert closed[..|runs| - 1] == runs[..|runs| - 1];
    }
  }

  // ----- whole histories -----

  datatype Step = DoLaunch(launch: Launch, now: int) | DoObserve(status: ProviderStatus, now: int) | DoRepair(retryable: bool, now: int)

  predicate Repairs(runs: seq<RunRow>, policy: Policy, step: Step) {
    step.DoRepair? && RepairVerdict(runs, policy, step.retryable, step.now).Allowed?
  }

  function After(runs: seq<RunRow>, policy: Policy, step: Step): seq<RunRow> {
    match step
    case DoLaunch(launch, now) => if launch.LaunchRefused? || Busy(runs) then runs else AfterLaunch(runs, launch, now)
    case DoObserve(status, now) => AfterObserve(runs, status, now)
    case DoRepair(retryable, now) => if Repairs(runs, policy, step) then AfterRepair(runs, now) else runs
  }

  /** The runs after a history, and how many repairs it granted. */
  function History(runs: seq<RunRow>, policy: Policy, steps: seq<Step>): (seq<RunRow>, nat)
    decreases |steps|
  {
    if steps == [] then (runs, 0)
    else
      var (now, granted) := History(runs, policy, steps[..|steps| - 1]);
      var last := steps[|steps| - 1];
      (After(now, policy, last), granted + if Repairs(now, policy, last) then 1 else 0)
  }

  /** However launches, observations and repairs follow each other, a task is granted no more repairs than
      attempts were left, and none once max_attempts runs exist. */
  lemma {:induction false} RepairsAreBounded(runs: seq<RunRow>, policy: Policy, steps: seq<Step>)
    ensures var (end, granted) := History(runs, policy, steps);
      && |runs| + granted <= |end|
      && (granted > 0 ==> |runs| + granted <= policy.maxAttempts)
    decreases |steps|
  {
    if steps != [] { RepairsAreBounded(runs, policy, steps[..|steps| - 1]); }
  }

  /** No stamp lies after `t`, and a run still to be launched has not started. */
  predicate Stamped(r: RunRow, t: int) {
    (r.started.Some? ==> r.started.value <= t) && (r.ended.Some? ==> r.ended.value <= t) && (r.status.RunPending? ==> r.started.None?)
  }

  ghost predicate AllStamped(runs: seq<RunRow>, t: int) {
    forall i | 0 <= i < |runs| :: Stamped(runs[i], t)
  }

  /** Every step is taken at `t` or later, and none before the one it follows. */
  ghost predicate Chronological(steps: seq<Step>, t: int) {
    forall i | 0 <= i < |steps| :: t <= steps[i].now && (i > 0 ==> steps[i - 1].now <= steps[i].now)
  }

  function LastTime(steps: seq<Step>, t: int): int {
    if steps == [] then t else steps[|steps| - 1].now
  }

  ghost predicate NoneShrank(runs: seq<RunRow>, t: int, later: seq<RunRow>, t': int) {
    |runs| <= |later| && forall i | 0 <= i < |runs| :: Spent(runs[i], t) <= Spent(later[i], t')
  }

  lemma {:induction false} TotalNeverShrinks(runs: seq<RunRow>, t: int, later: seq<RunRow>, t': int)
    requires NoneShrank(runs, t, later, t')
    ensures TotalSpent(runs, t) <= TotalSpent(later, t')
    decreases |later|
  {
    if later != [] {
      var n := |later| - 1;
      if |runs| == |later| {
        assert NoneShrank(runs[..n], t, later[..n], t');
        TotalNeverShrinks(runs[..n], t, later[..n], t');
      } else {
        TotalNeverShrinks(runs, t, later[..n], t');
      }
    }
  }

  lemma LaunchNeverShrinks(runs: seq<RunRow>, launch: Launch, now: int, t: int)
    requires AllStamped(runs, t) && t <= now
    ensures AllStamped(AfterLaunch(runs, launch, now), now)
    ensures NoneShrank(runs, t, AfterLaunch(runs, launch, now), now)
  {
    var k := |runs| - 1;
    assert Reusable(runs) ==> Stamped(runs[k], t);
  }

  lemma StepNeverShrinks(runs: seq<RunRow>, policy: Policy, step: Step, t: int)
    requires AllStamped(runs, t) && t <= step.now
    ensures AllStamped(After(runs, policy, step), step.now)
    ensures NoneShrank(runs, t, After(runs, policy, step), step.now)
  {
    if step.DoLaunch? { LaunchNeverShrinks(runs, step.launch, step.now, t); }
  }

  lemma {:induction false} HistoryNeverShrinks(runs: seq<RunRow>, policy: Policy, steps: seq<Step>, t: int)
    requires AllStamped(runs, t) && Chronological(steps, t)
    ensures var end, t' := History(runs, policy, steps).0, LastTime(steps, t);
      t <= t' && AllStamped(end, t') && |runs| <= |end| && TotalSpent(runs, t) <= TotalSpent(end, t')
    decreases |steps|
  {
    if steps != [] {
      var init, last := steps[..|steps| - 1], steps[|steps| - 1];
      HistoryNeverShrinks(runs, policy, init, t);
      var before, s := History(runs, policy, init).0, LastTime(init, t);
      StepNeverShrinks(before, policy, last, s);
      TotalNeverShrinks(before, s, After(before, policy, last), last.now);
    }
  }

  /** A spent budget stays spent: once attempts or runtime are used up, no later step of any history is
      granted a repair, because neither the runs nor the runtime they account for ever shrink. */
  lemma {:induction false} ExhaustionIsFinal(runs: seq<RunRow>, policy: Policy, steps: seq<Step>, t: int)
    requires AllStamped(runs, t) && Chronological(steps, t)
    requires RepairVerdict(runs, policy, true, t) != Allowed
    ensures History(runs, policy, steps).1 == 0
    ensures RepairVerdict(History(runs, policy, steps).0, policy, true, LastTime(steps, t)) != Allowed
    decreases |steps|
  {
    HistoryNeverShrinks(runs, policy, steps, t);
    if steps != [] {
      var init, last := steps[..|steps| - 1], steps[|steps| - 1];
      ExhaustionIsFinal(runs, policy, init, t);
      HistoryNeverShrinks(runs, policy, init, t);
      var before, s := History(runs, policy, init).0, LastTime(init, t);
      assert NoneShrank(before, s, before, last.now);
      TotalNeverShrinks(before, s, before, last.now);
    }
  }
}
