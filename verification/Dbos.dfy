/**
 Durable workflows: a body is replayed over a checkpoint table in one transaction per resume. A resume
 may finish, stop after the adapter commit with its writes kept, or be interrupted anywhere (process
 death, or a freeze of the writers met by one of its checks), which rolls the tables back and keeps the
 adapter. Restores begin, mark and complete between any two statements of a resume.
 `Resume` says what one resume does; class `Runtime` does it on mutable tables.
 */
module Dbos {
  import opened Wrappers
  import opened Effects
  import R = Recovery

  type StepId = string

  /** STEP, APPROVAL_WAIT, and the effect-bound kinds EXTERNAL, TOOL and LLM. */
  datatype Kind = Plain | Approval | Bound

  /** What a step returns: a JSON value, or the record an effect-bound step checkpoints. */
  datatype Value =
    | Json(text: string)
    | EffectRecord(ok: bool, resumed: bool, key: Key, token: Token, post: Post, prep: Option<string>)

  /** What the body does next, as a function of the values its context calls returned so far. */
  datatype Action = Do(id: StepId) | Return(output: Value) | Throw

  /** A registered workflow: its body, and the kind and idempotency key the body fixes for each step.
      Keys of different steps may coincide. */
  datatype Program = Program(body: seq<Value> -> Action, kind: StepId -> Kind, key: StepId -> Key)

  datatype StepStatus = StepSuccess | StepError | StepAmbiguous | StepUnknown

  datatype Checkpoint = Checkpoint(functionId: nat, status: StepStatus, output: Option<Value>, key: Option<Key>)

  datatype Wait = Waiting | Signaled(payload: string) | WaitCancelled

  datatype Status = WfPending | WfWaiting | WfSuccess | WfError | WfCancelled

  datatype Tables = Tables(
    status: Status, output: Option<Value>, next: nat,
    steps: map<StepId, Checkpoint>, waits: map<StepId, Wait>)

  /** Calls that leave the database: a step function or prep function, or the adapter's commit. */
  datatype Event = Worked(id: StepId) | Prepared(id: StepId, key: Key) | Delivered(id: StepId, key: Key)

  /** recovery_control with its history; how long the history was at the last freeze check a resume passed,
      and at each UPDATE of next_function_id. */
  datatype Rec = Rec(control: R.Control, history: seq<R.Op>, checked: nat, writes: seq<nat>)

  datatype World = World(db: Tables, adapter: map<Key, Token>, nextToken: Token, events: seq<Event>, rec: Rec)

  const START: Tables := Tables(WfPending, None, 0, map[], map[])

  /** Points inside a step: before the UPDATE that allocates, before the check that follows it, after prep,
      after the adapter's commit, before a checkpoint's check, between that check and its INSERT. */
  datatype Phase = Allocating | Starting | AfterPrep | AfterCommit | Checkpointing | Inserting

  /** Everything a resume meets: how many context calls the process survives and where else it dies, what
      restores do at its start, at each point, before its last check and before its COMMIT, what step
      functions return (None: they throw), whether the key reaches the adapter behind the step's back
      while its prep runs, and what postcondition is observed (None: the observation throws). */
  datatype Env = Env(
    calls: nat, dies: (StepId, Phase) -> bool, lostAtEnd: bool,
    atStart: seq<R.Op>, recovery: (StepId, Phase) -> seq<R.Op>, atEnd: seq<R.Op>, atCommit: seq<R.Op>,
    work: StepId -> Option<Value>, meanwhile: StepId -> bool, requested: StepId -> Option<Post>)

  datatype StepResult =
    | Got(value: Value)
    | Errored
    | Stopped          // CrashAfterEffectCommitError
    | Recoverable      // AmbiguousPostconditionError
    | AwaitsApproval
    | Interrupted

  predicate RecoverablePost(p: Post) {
    p.Unknown? || p.Ambiguous?
  }

  predicate RecoverableStatus(s: StepStatus) {
    s.StepAmbiguous? || s.StepUnknown?
  }

  function StatusFor(p: Post): StepStatus {
    if p.Unknown? then StepUnknown else StepAmbiguous
  }

  // ----- one context call -----

  function Log(w: World, e: Event): World {
    w.(events := w.events + [e])
  }

  /** INSERT ... ON CONFLICT (workflow_id, step_id) DO UPDATE: the function id of an existing row stays. */
  function Write(w: World, id: StepId, fid: nat, status: StepStatus, output: Option<Value>, key: Option<Key>): World {
    var row :=
      if id in w.db.steps then
        Checkpoint(w.db.steps[id].functionId, status, output, if key.Some? then key else w.db.steps[id].key)
      else Checkpoint(fid, status, output, key);
    w.(db := w.db.(steps := w.db.steps[id := row]))
  }

  /** Restores proceed. */
  function Fall(w: World, ops: seq<R.Op>): World {
    w.(rec := w.rec.(control := R.Run(w.rec.control, ops), history := w.rec.history + ops))
  }

  /** assertWritersAllowed passed here. */
  function Checked(w: World): World {
    w.(rec := w.rec.(checked := |w.rec.history|))
  }

  /** The worlds differ in their recovery records alone. */
  predicate SameRest(w: World, w': World) {
    w'.db == w.db && w'.adapter == w.adapter && w'.nextToken == w.nextToken && w'.events == w.events
  }

  /** A point without a check: others' statements fall, and the process may die. */
  function Pass(env: Env, w: World, id: StepId, phase: Phase): (r: (World, bool))
    ensures SameRest(w, r.0)
  {
    (Fall(w, env.recovery(id, phase)), !env.dies(id, phase))
  }

  /** A point with a check: it also refuses frozen writers. */
  function Guard(env: Env, w: World, id: StepId, phase: Phase): (r: (World, bool))
    ensures SameRest(w, r.0)
  {
    var w1 := Fall(w, env.recovery(id, phase));
    if env.dies(id, phase) || w1.rec.control.frozen then (w1, false) else (Checked(w1), true)
  }

  /** A checkpoint is refused while writers are frozen; its check and its INSERT are two statements. */
  function Save(env: Env, w: World, id: StepId, fid: nat, status: StepStatus, output: Option<Value>, key: Option<Key>, r: StepResult): (s: (World, StepResult))
    ensures SameRest(w, s.0) || SameRest(Write(w, id, fid, status, output, key), s.0)
    ensures s.1 != Interrupted ==> s.1 == r && s.0.db == Write(w, id, fid, status, output, key).db
  {
    var (w1, allowed) := Guard(env, w, id, Checkpointing);
    if !allowed then (w1, Interrupted)
    else
      var (w2, alive) := Pass(env, w1, id, Inserting);
      if !alive then (w2, Interrupted) else (Write(w2, id, fid, status, output, key), r)
  }

  /** The UPDATE itself: one statement with its condition. */
  function Advance(w: World): World {
    w.(db := w.db.(next := w.db.next + 1), rec := w.rec.(writes := w.rec.writes + [|w.rec.history|]))
  }

  /** UPDATE ... SET next_function_id WHERE writers_frozen = false, then assertWritersAllowed once more. */
  function Allocate(env: Env, w: World, id: StepId): (r: (World, bool))
    ensures SameRest(w, r.0.(db := w.db)) && r.0.db == w.db.(next := r.0.db.next)
    ensures r.1 ==> r.0.db.next == w.db.next + 1
  {
    var (w1, allowed) := Guard(env, w, id, Allocating);
    if !allowed then (w1, false) else Guard(env, Advance(w1), id, Starting)
  }

  /** A step without an effect: run its function once, checkpoint what came out. */
  function PlainStep(env: Env, w: World, id: StepId, work: Option<Value>): (World, StepResult) {
    if id in w.db.steps then
      if w.db.steps[id].status.StepError? then (w, Errored) else (w, Got(OutputOf(w.db.steps[id])))
    else
      var (w1, allowed) := Allocate(env, w, id);
      if !allowed then (w1, Interrupted)
      else
        var w2 := Log(w1, Worked(id));
        if work.None? then Save(env, w2, id, w.db.next, StepError, None, None, Errored)
        else Save(env, w2, id, w.db.next, StepSuccess, work, None, Got(work.value))
  }

  function Observed(env: Env, w: World, id: StepId, key: Key): Option<Post> {
    if env.requested(id).None? then None else Some(VerifyPostcondition(w.adapter, key, env.requested(id).value))
  }

  /** `resumeAmbiguousEffectStep`: an AMBIGUOUS or UNKNOWN checkpoint is settled by observation only. */
  function ResumeAmbiguous(env: Env, w: World, id: StepId, key: Key, fid: nat): (World, StepResult) {
    if key !in w.adapter then (w, Errored)
    else
      var post := Observed(env, w, id, key);
      if post.None? then (w, Errored)
      else if post.value.Verified? then
        var v := EffectRecord(true, true, key, w.adapter[key], Verified, None);
        Save(env, w, id, fid, StepSuccess, Some(v), Some(key), Got(v))
      else if RecoverablePost(post.value) then
        var v := EffectRecord(false, true, key, w.adapter[key], post.value, None);
        Save(env, w, id, fid, StatusFor(post.value), Some(v), Some(key), Recoverable)
      else Save(env, w, id, fid, StepError, None, Some(key), Errored)
  }

  /** The adapter already holds the key and no checkpoint exists: neither prep nor commit is called. */
  function AfterLostCheckpoint(env: Env, w: World, id: StepId, key: Key, fid: nat): (World, StepResult)
    requires key in w.adapter
  {
    var post := Observed(env, w, id, key);
    if post.None? then (w, Errored)
    else if RecoverablePost(post.value) then
      var v := EffectRecord(false, true, key, w.adapter[key], post.value, None);
      Save(env, w, id, fid, StatusFor(post.value), Some(v), Some(key), Recoverable)
    else if !post.value.Verified? then (w, Errored)
    else
      var v := EffectRecord(true, true, key, w.adapter[key], Verified, None);
      Save(env, w, id, fid, StepSuccess, Some(v), Some(key), Got(v))
  }

  /** The adapter's `commit`. */
  function Commit(w: World, key: Key): (w': World)
    ensures key in w'.adapter
  {
    if key in w.adapter then w
    else w.(adapter := w.adapter[key := w.nextToken], nextToken := w.nextToken + 1)
  }

  /** output_json of a row; a missing one reads as null. */
  function OutputOf(row: Checkpoint): Value {
    if row.output.Some? then row.output.value else Json("null")
  }

  function PrepText(v: Option<Value>): Option<string> {
    if v.Some? && v.value.Json? then Some(v.value.text) else None
  }

  /** Prep, commit, observe, checkpoint. */
  function Deliver(env: Env, w: World, id: StepId, key: Key, fid: nat): (World, StepResult) {
    var w1 := Log(w, Prepared(id, key));
    var (w2, alive) := Pass(env, if env.meanwhile(id) then Commit(w1, key) else w1, id, AfterPrep);
    if !alive then (w2, Interrupted)
    else if env.work(id).None? then
      if key in w2.adapter then (w2, Stopped)
      else Save(env, w2, id, fid, StepError, None, Some(key), Errored)
    else
      var (w3, alive') := Pass(env, Log(Commit(w2, key), Delivered(id, key)), id, AfterCommit);
      if !alive' then (w3, Interrupted) else Settle(env, w3, id, key, fid)
  }

  /** After the commit: a throwing observation stops the workflow with its writes kept. */
  function Settle(env: Env, w: World, id: StepId, key: Key, fid: nat): (World, StepResult)
    requires key in w.adapter
  {
    var post := Observed(env, w, id, key);
    if post.None? then (w, Stopped)
    else
      var v := EffectRecord(post.value.Verified?, false, key, w.adapter[key], post.value, PrepText(env.work(id)));
      if RecoverablePost(post.value) then Save(env, w, id, fid, StatusFor(post.value), Some(v), Some(key), Recoverable)
      else if !post.value.Verified? then Save(env, w, id, fid, StepError, None, Some(key), Errored)
      else Save(env, w, id, fid, StepSuccess, Some(v), Some(key), Got(v))
  }

  function BoundStep(env: Env, w: World, id: StepId, key: Key): (World, StepResult) {
    if id in w.db.steps then
      var row := w.db.steps[id];
      if row.status.StepError? then (w, Errored)
      else if RecoverableStatus(row.status) then
        ResumeAmbiguous(env, w, id, if row.key.Some? then row.key.value else key, row.functionId)
      else (w, Got(OutputOf(row)))
    else
      var (w1, allowed) := Allocate(env, w, id);
      if !allowed then (w1, Interrupted)
      else if key in w1.adapter then AfterLostCheckpoint(env, w1, id, key, w.db.next)
      else Deliver(env, w1, id, key, w.db.next)
  }

  function ApprovalStep(env: Env, w: World, id: StepId): (World, StepResult) {
    if id in w.db.steps && !RecoverableStatus(w.db.steps[id].status) then
      if w.db.steps[id].status.StepError? then (w, Errored) else (w, Got(OutputOf(w.db.steps[id])))
    else if id in w.db.waits && w.db.waits[id].Signaled? then
      PlainStep(env, w, id, Some(Json(w.db.waits[id].payload)))
    else if id in w.db.waits && w.db.waits[id].WaitCancelled? then (w, Errored)
    else
      // a new wait is checked before its INSERT, and every wait once more before the status is set
      var (w1, inserted) := if id in w.db.waits then (w, true) else Guard(env, w, id, Starting);
      if !inserted then (w1, Interrupted)
      else
        var (w2, allowed) := Guard(env, w1, id, Checkpointing);
        if !allowed then (w2, Interrupted)
        else (w2.(db := w2.db.(status := WfWaiting, waits := w2.db.waits[id := Waiting])), AwaitsApproval)
  }

  function ContextCall(p: Program, env: Env, w: World, id: StepId): (World, StepResult) {
    match p.kind(id)
    case Plain => PlainStep(env, w, id, env.work(id))
    case Approval => ApprovalStep(env, w, id)
    case Bound => BoundStep(env, w, id, p.key(id))
  }

  // ----- one resume -----

  /** A context as the body sees it: what a call of a step does to the world and answers. */
  type Context = (World, StepId) -> (World, StepResult)

  function ContextOf(p: Program, env: Env): Context {
    (w: World, id: StepId) => ContextCall(p, env, w, id)
  }

  /** The body from `history` on; the process dies after `n` more context calls. Errors propagate. */
  function Replay(body: seq<Value> -> Action, call: Context, w: World, history: seq<Value>, n: nat): (World, StepResult)
    decreases n
  {
    match body(history)
    case Return(v) => (w, Got(v))
    case Throw => (w, Errored)
    case Do(id) =>
      if n == 0 then (w, Interrupted)
      else
        var (w1, r) := call(w, id);
        if r.Got? then Replay(body, call, w1, history + [r.value], n - 1) else (w1, r)
  }

  function RollBack(before: World, w: World): World {
    w.(db := before.db)
  }

  predicate Terminal(s: Status) {
    s.WfSuccess? || s.WfError? || s.WfCancelled?
  }

  /** The last check and the final UPDATE, or the rollback. */
  function Finish(env: Env, w: World, w1: World, r: StepResult): World {
    if r.Interrupted? then RollBack(w, w1)
    else if r.Got? || r.Errored? then
      var w2 := Fall(w1, env.atEnd);
      if w2.rec.control.frozen then RollBack(w, w2)
      else Checked(w2).(db := if r.Got? then w2.db.(status := WfSuccess, output := Some(r.value)) else w2.db.(status := WfError))
    else w1
  }

  /** The transaction up to its COMMIT or ROLLBACK, past the first check. */
  function Transaction(p: Program, env: Env, w: World): World {
    var (w1, r) := Replay(p.body, ContextOf(p, env), w.(db := w.db.(status := WfPending)), [], env.calls);
    Finish(env, w, w1, r)
  }

  /** resumeWorkflow: refused while frozen; a finished workflow answers from its row; what falls before the
      COMMIT no longer stops it, only the death of the process does. */
  function Resume(p: Program, env: Env, w: World): World {
    var w0 := Fall(w, env.atStart);
    if w0.rec.control.frozen || Terminal(w.db.status) then w0
    else
      var w1 := Fall(Transaction(p, env, Checked(w0)), env.atCommit);
      if env.lostAtEnd then RollBack(w, w1) else w1
  }

  function SignalApproval(w: World, id: StepId, payload: string): World {
    if w.rec.control.frozen || id !in w.db.waits || !w.db.waits[id].Waiting? then w
    else w.(db := w.db.(waits := w.db.waits[id := Signaled(payload)],
                        status := if w.db.status.WfWaiting? then WfPending else w.db.status))
  }

  /** A resume, an approval signal, some other party's commit reaching the adapter, or a step of a restore. */
  datatype Op = DoResume(env: Env) | Signal(id: StepId, payload: string) | OtherCommit(key: Key) | Restore(op: R.Op)

  function Apply(p: Program, w: World, op: Op): World {
    match op
    case DoResume(env) => Resume(p, env, w)
    case Signal(id, payload) => SignalApproval(w, id, payload)
    case OtherCommit(key) => Commit(w, key)
    case Restore(step) => Fall(w, [step])
  }

  function Run(p: Program, w: World, ops: seq<Op>): World
    decreases |ops|
  {
    if ops == [] then w else Apply(p, Run(p, w, ops[..|ops| - 1]), ops[|ops| - 1])
  }

  /** A workflow just started, with whatever the adapter already holds and whatever restores went before. */
  predicate Started(w: World) {
    && w.db == START && w.events == []
    && w.rec.control == R.Run(R.INITIAL, w.rec.history) && w.rec.checked == 0 && w.rec.writes == []
  }

  /** The body evaluated on the checkpointed outputs alone. */
  function Evaluate(p: Program, steps: map<StepId, Checkpoint>, history: seq<Value>, n: nat): Option<Value>
    decreases n
  {
    match p.body(history)
    case Return(v) => Some(v)
    case Throw => None
    case Do(id) =>
      if n == 0 || id !in steps || !steps[id].status.StepSuccess? then None
      else Evaluate(p, steps, history + [OutputOf(steps[id])], n - 1)
  }

  // ----- the same, as the program does it -----

  class Runtime {
    var status: Status
    var output: Option<Value>
    var next: nat
    var steps: map<StepId, Checkpoint>
    var waits: map<StepId, Wait>
    var adapter: map<Key, Token>
    var nextToken: Token
    var events: seq<Event>
    var rec: Rec

    constructor (adapter0: map<Key, Token>, token0: Token, history: seq<R.Op>)
      ensures Snapshot() == World(START, adapter0, token0, [], Rec(R.Run(R.INITIAL, history), history, 0, []))
      ensures Started(Snapshot())
    {
      status, output, next, steps, waits := WfPending, None, 0, map[], map[];
      adapter, nextToken, events := adapter0, token0, [];
      rec := Rec(R.Run(R.INITIAL, history), history, 0, []);
    }

    function Snapshot(): World
      reads this
    {
      World(Tables(status, output, next, steps, waits), adapter, nextToken, events, rec)
    }

    /** Restores proceed. */
    method Others(ops: seq<R.Op>)
      modifies this`rec
      ensures Snapshot() == Fall(old(Snapshot()), ops)
    {
      rec := rec.(control := R.Run(rec.control, ops), history := rec.history + ops);
    }

    method AssertWritersAllowed(env: Env, id: StepId, phase: Phase) returns (ok: bool)
      modifies this`rec
      ensures (Snapshot(), ok) == Guard(env, old(Snapshot()), id, phase)
    {
      Others(env.recovery(id, phase));
      ok := !env.dies(id, phase) && !rec.control.frozen;
      if ok {
        rec := rec.(checked := |rec.history|);
      }
    }

    method Survive(env: Env, id: StepId, phase: Phase) returns (alive: bool)
      modifies this`rec
      ensures (Snapshot(), alive) == Pass(env, old(Snapshot()), id, phase)
    {
      Others(env.recovery(id, phase));
      alive := !env.dies(id, phase);
    }

    method AllocateFunctionId(env: Env, id: StepId) returns (ok: bool, fid: nat)
      modifies this`next, this`rec
      ensures (Snapshot(), ok) == Allocate(env, old(Snapshot()), id) && fid == old(next)
    {
      fid := next;
      ok := AssertWritersAllowed(env, id, Allocating);
      if ok {
        next := fid + 1;
        rec := rec.(writes := rec.writes + [|rec.history|]);
        ok := AssertWritersAllowed(env, id, Starting);
      }
    }

    method CheckpointStep(env: Env, id: StepId, fid: nat, st: StepStatus, out: Option<Value>, key: Option<Key>, r: StepResult)
      returns (r': StepResult)
      modifies this`steps, this`rec
      ensures (Snapshot(), r') == Save(env, old(Snapshot()), id, fid, st, out, key, r)
    {
      var ok := AssertWritersAllowed(env, id, Checkpointing);
      if ok {
        ok := Survive(env, id, Inserting);
      }
      if !ok {
        return Interrupted;
      }
      if id in steps {
        var k := if key.Some? then key else steps[id].key;
        steps := steps[id := Checkpoint(steps[id].functionId, st, out, k)];
      } else {
        steps := steps[id := Checkpoint(fid, st, out, key)];
      }
      r' := r;
    }

    method RunPlainStep(env: Env, id: StepId, work: Option<Value>) returns (r: StepResult)
      modifies this
      ensures (Snapshot(), r) == PlainStep(env, old(Snapshot()), id, work)
    {
      if id in steps {
        return if steps[id].status.StepError? then Errored else Got(OutputOf(steps[id]));
      }
      var ok, fid := AllocateFunctionId(env, id);
      if !ok {
        return Interrupted;
      }
      events := events + [Worked(id)];
      if work.None? {
        r := CheckpointStep(env, id, fid, StepError, None, None, Errored);
      } else {
        r := CheckpointStep(env, id, fid, StepSuccess, work, None, Got(work.value));
      }
    }

    method ResumeAmbiguousEffectStep(env: Env, id: StepId, key: Key, fid: nat) returns (r: StepResult)
      modifies this
      ensures (Snapshot(), r) == ResumeAmbiguous(env, old(Snapshot()), id, key, fid)
    {
      if key !in adapter || env.requested(id).None? {
        return Errored;
      }
      var post := VerifyPostcondition(adapter, key, env.requested(id).value);
      if post.Verified? {
        var v := EffectRecord(true, true, key, adapter[key], Verified, None);
        r := CheckpointStep(env, id, fid, StepSuccess, Some(v), Some(key), Got(v));
      } else if RecoverablePost(post) {
        var v := EffectRecord(false, true, key, adapter[key], post, None);
        r := CheckpointStep(env, id, fid, StatusFor(post), Some(v), Some(key), Recoverable);
      } else {
        r := CheckpointStep(env, id, fid, StepError, None, Some(key), Errored);
      }
    }

    method RecoverCommitted(env: Env, id: StepId, key: Key, fid: nat) returns (r: StepResult)
      requires key in adapter
      modifies this
      ensures (Snapshot(), r) == AfterLostCheckpoint(env, old(Snapshot()), id, key, fid)
    {
      if env.requested(id).None? {
        return Errored;
      }
      var post := VerifyPostcondition(adapter, key, env.requested(id).value);
      if RecoverablePost(post) {
        var v := EffectRecord(false, true, key, adapter[key], post, None);
        r := CheckpointStep(env, id, fid, StatusFor(post), Some(v), Some(key), Recoverable);
      } else if !post.Verified? {
        r := Errored;
      } else {
        var v := EffectRecord(true, true, key, adapter[key], Verified, None);
        r := CheckpointStep(env, id, fid, StepSuccess, Some(v), Some(key), Got(v));
      }
    }

    method CommitToAdapter(key: Key)
      modifies this`adapter, this`nextToken
      ensures Snapshot() == Commit(old(Snapshot()), key)
    {
      if key !in adapter {
        adapter, nextToken := adapter[key := nextToken], nextToken + 1;
      }
    }

    method DeliverEffect(env: Env, id: StepId, key: Key, fid: nat) returns (r: StepResult)
      modifies this
      ensures (Snapshot(), r) == Deliver(env, old(Snapshot()), id, key, fid)
    {
      events := events + [Prepared(id, key)];
      if env.meanwhile(id) {
        CommitToAdapter(key);
      }
      var alive := Survive(env, id, AfterPrep);
      if !alive {
        return Interrupted;
      }
      var prep := env.work(id);
      if prep.None? {
        if key in adapter {
          return Stopped;
        }
        r := CheckpointStep(env, id, fid, StepError, None, Some(key), Errored);
        return;
      }
      CommitToAdapter(key);
      events := events + [Delivered(id, key)];
      alive := Survive(env, id, AfterCommit);
      if !alive {
        return Interrupted;
      }
      if env.requested(id).None? {
        return Stopped;
      }
      var post := VerifyPostcondition(adapter, key, env.requested(id).value);
      var v := EffectRecord(post.Verified?, false, key, adapter[key], post, PrepText(prep));
      if RecoverablePost(post) {
        r := CheckpointStep(env, id, fid, StatusFor(post), Some(v), Some(key), Recoverable);
      } else if !post.Verified? {
        r := CheckpointStep(env, id, fid, StepError, None, Some(key), Errored);
      } else {
        r := CheckpointStep(env, id, fid, StepSuccess, Some(v), Some(key), Got(v));
      }
    }

    method RunEffectBoundStep(env: Env, id: StepId, key: Key) returns (r: StepResult)
      modifies this
      ensures (Snapshot(), r) == BoundStep(env, old(Snapshot()), id, key)
    {
      if id in steps {
        var row := steps[id];
        if row.status.StepError? {
          return Errored;
        }
        if RecoverableStatus(row.status) {
          r := ResumeAmbiguousEffectStep(env, id, if row.key.Some? then row.key.value else key, row.functionId);
          return;
        }
        return Got(OutputOf(row));
      }
      var ok, fid := AllocateFunctionId(env, id);
      if !ok {
        return Interrupted;
      }
      if key in adapter {
        r := RecoverCommitted(env, id, key, fid);
      } else {
        r := DeliverEffect(env, id, key, fid);
      }
    }

    method WaitForApproval(env: Env, id: StepId) returns (r: StepResult)
      modifies this
      ensures (Snapshot(), r) == ApprovalStep(env, old(Snapshot()), id)
    {
      if id in steps && !RecoverableStatus(steps[id].status) {
        return if steps[id].status.StepError? then Errored else Got(OutputOf(steps[id]));
      }
      if id in waits && waits[id].Signaled? {
        r := RunPlainStep(env, id, Some(Json(waits[id].payload)));
        return;
      }
      if id in waits && waits[id].WaitCancelled? {
        return Errored;
      }
      var ok := true;
      if id !in waits {
        ok := AssertWritersAllowed(env, id, Starting);
      }
      if ok {
        ok := AssertWritersAllowed(env, id, Checkpointing);
      }
      if !ok {
        return Interrupted;
      }
      waits := waits[id := Waiting];
      status := WfWaiting;
      r := AwaitsApproval;
    }

    method RunStep(p: Program, env: Env, id: StepId) returns (r: StepResult)
      modifies this
      ensures (Snapshot(), r) == ContextCall(p, env, old(Snapshot()), id)
    {
      match p.kind(id)
      case Plain => r := RunPlainStep(env, id, env.work(id));
      case Approval => r := WaitForApproval(env, id);
      case Bound => r := RunEffectBoundStep(env, id, p.key(id));
    }

    method RunBody(p: Program, env: Env) returns (r: StepResult)
      modifies this
      ensures (Snapshot(), r) == Replay(p.body, ContextOf(p, env), old(Snapshot()), [], env.calls)
    {
      var history: seq<Value> := [];
      var n := env.calls;
      while true
        invariant Replay(p.body, ContextOf(p, env), Snapshot(), history, n) == Replay(p.body, ContextOf(p, env), old(Snapshot()), [], env.calls)
        decreases n
      {
        match p.body(history)
        case Return(v) => return Got(v);
        case Throw => return Errored;
        case Do(id) =>
          if n == 0 {
            return Interrupted;
          }
          r := RunStep(p, env, id);
          if !r.Got? {
            return;
          }
          history, n := history + [r.value], n - 1;
      }
    }

    method RunTransaction(p: Program, env: Env)
      modifies this
      ensures Snapshot() == Transaction(p, env, old(Snapshot()))
    {
      var status0, output0, next0, steps0, waits0 := status, output, next, steps, waits;
      status := WfPending;
      var r := RunBody(p, env);
      if r.Got? || r.Errored? {
        Others(env.atEnd);
        if !rec.control.frozen {
          rec := rec.(checked := |rec.history|);
          if r.Got? {
            status, output := WfSuccess, Some(r.value);
          } else {
            status := WfError;
          }
          return;
        }
        r := Interrupted;
      }
      if r.Interrupted? {
        status, output, next, steps, waits := status0, output0, next0, steps0, waits0;
      }
    }

    method ResumeWorkflow(p: Program, env: Env)
      modifies this
      ensures Snapshot() == Resume(p, env, old(Snapshot()))
    {
      Others(env.atStart);
      if rec.control.frozen || Terminal(status) {
        return;
      }
      var status0, output0, next0, steps0, waits0 := status, output, next, steps, waits;
      rec := rec.(checked := |rec.history|);
      RunTransaction(p, env);
      Others(env.atCommit);
      if env.lostAtEnd {
        status, output, next, steps, waits := status0, output0, next0, steps0, waits0;
      }
    }

    method Signal(id: StepId, payload: string)
      modifies this`waits, this`status
      ensures Snapshot() == SignalApproval(old(Snapshot()), id, payload)
    {
      if !rec.control.frozen && id in waits && waits[id].Waiting? {
        waits := waits[id := Signaled(payload)];
        if status.WfWaiting? {
          status := WfPending;
        }
      }
    }
  }
}
