/**
 What each context call of a durable workflow answers and leaves behind, case by case, and how a resume ends.
 The cases are told from the tables, the adapter and what the resume meets, not from the step's own branches.
 */
module DbosOutcomes {
  import opened Wrappers
  import opened Effects
  import opened Dbos
  import G = DbosGuarantees
  import R = Recovery

  // ----- where a call is interrupted -----

  /** Points at which assertWritersAllowed is asked. */
  predicate Asks(phase: Phase) {
    phase.Allocating? || phase.Starting? || phase.Checkpointing?
  }

  /** recovery_control once the restores at these points have fallen. */
  function Met(env: Env, c: R.Control, id: StepId, points: seq<Phase>): R.Control
    decreases |points|
  {
    if points == [] then c else Met(env, R.Run(c, env.recovery(id, points[0])), id, points[1..])
  }

  /** At one of the points the process dies, or one that asks finds the writers frozen by then. */
  predicate Hindered(env: Env, c: R.Control, id: StepId, points: seq<Phase>)
    decreases |points|
  {
    points != [] &&
    (env.dies(id, points[0]) || (Asks(points[0]) && Met(env, c, id, points[..1]).frozen)
     || Hindered(env, Met(env, c, id, points[..1]), id, points[1..]))
  }

  lemma Twice(env: Env, c: R.Control, id: StepId, a: Phase, b: Phase)
    ensures Met(env, c, id, [a, b]) == R.Run(R.Run(c, env.recovery(id, a)), env.recovery(id, b))
    ensures Hindered(env, c, id, [a, b]) <==>
      || env.dies(id, a) || (Asks(a) && R.Run(c, env.recovery(id, a)).frozen)
      || env.dies(id, b) || (Asks(b) && Met(env, c, id, [a, b]).frozen)
  {
    var c1 := R.Run(c, env.recovery(id, a));
    assert [a, b][1..] == [b] && [a, b][..1] == [a] && [b][..1] == [b] && [b][1..] == [] && [a][1..] == [];
    assert Met(env, c, id, [a]) == c1 && Met(env, c1, id, [b]) == R.Run(c1, env.recovery(id, b));
    assert Hindered(env, c1, id, [b]) <==> env.dies(id, b) || (Asks(b) && Met(env, c1, id, [b]).frozen);
  }

  lemma {:induction false} Splits(env: Env, c: R.Control, id: StepId, points: seq<Phase>, rest: seq<Phase>)
    ensures Met(env, c, id, points + rest) == Met(env, Met(env, c, id, points), id, rest)
    ensures Hindered(env, c, id, points + rest) <==> Hindered(env, c, id, points) || Hindered(env, Met(env, c, id, points), id, rest)
    decreases |points|
  {
    if points == [] {
      assert points + rest == rest;
    } else {
      var c1 := R.Run(c, env.recovery(id, points[0]));
      Splits(env, c1, id, points[1..], rest);
      assert (points + rest)[1..] == points[1..] + rest && (points + rest)[..1] == points[..1] == [points[0]];
      assert Met(env, c, id, [points[0]]) == c1;
    }
  }

  const ALLOCATION: seq<Phase> := [Allocating, Starting]
  const CHECKPOINT: seq<Phase> := [Checkpointing, Inserting]

  /** A function id is allocated exactly when nothing hinders the two points around its UPDATE; next_function_id
      then grew by one. Nothing else but the recovery record moves. */
  lemma AllocatesExactlyWhen(env: Env, w: World, id: StepId)
    ensures var (w', ok) := Allocate(env, w, id);
      && (ok <==> !Hindered(env, w.rec.control, id, ALLOCATION))
      && (ok ==> w'.db == w.db.(next := w.db.next + 1) && w'.rec.control == Met(env, w.rec.control, id, ALLOCATION))
      && w'.db == w.db.(next := w'.db.next) && w'.adapter == w.adapter && w'.nextToken == w.nextToken && w'.events == w.events
  {
    Twice(env, w.rec.control, id, Allocating, Starting);
  }

  /** The step's row and the rest of the tables after a checkpoint. */
  predicate Written(w: World, w': World, id: StepId, fid: nat, status: StepStatus, output: Option<Value>, key: Option<Key>) {
    && w'.db == w.db.(steps := w'.db.steps) && w'.db.steps.Keys == w.db.steps.Keys + {id}
    && (forall i | i in w.db.steps && i != id :: w'.db.steps[i] == w.db.steps[i])
    && w'.db.steps[id].status == status && w'.db.steps[id].output == output
    && w'.db.steps[id].functionId == (if id in w.db.steps then w.db.steps[id].functionId else fid)
    && w'.db.steps[id].key == (if key.None? && id in w.db.steps then w.db.steps[id].key else key)
  }

  /** A checkpoint is written exactly when nothing hinders its check and its INSERT; an existing row keeps its
      function id, and its key unless one is given. */
  lemma SavesExactlyWhen(env: Env, w: World, id: StepId, fid: nat, status: StepStatus, output: Option<Value>, key: Option<Key>, r: StepResult)
    requires !r.Interrupted?
    ensures var (w', s) := Save(env, w, id, fid, status, output, key, r);
      && s == (if Hindered(env, w.rec.control, id, CHECKPOINT) then Interrupted else r)
      && (if s.Interrupted? then w'.db == w.db else Written(w, w', id, fid, status, output, key))
      && w'.adapter == w.adapter && w'.nextToken == w.nextToken && w'.events == w.events
  {
    Twice(env, w.rec.control, id, Checkpointing, Inserting);
  }

  // ----- what a call answers -----

  /** A checkpointed step is answered from its row: an ERROR throws, a missing output reads as null. */
  predicate FromItsRow(row: Checkpoint, r: StepResult) {
    match row.status
    case StepError => r == Errored
    case _ => r == Got(match row.output case Some(v) => v case None => Json("null"))
  }

  /** The row and the answer that belong to an observed postcondition. */
  predicate AsObserved(post: Post, resumed: bool, key: Key, token: Token, prep: Option<string>, row: Checkpoint, r: StepResult) {
    row.key == Some(key) &&
    match post
    case Verified =>
      var v := EffectRecord(true, resumed, key, token, Verified, prep);
      row.status == StepSuccess && row.output == Some(v) && r == Got(v)
    case Unknown =>
      row.status == StepUnknown && row.output == Some(EffectRecord(false, resumed, key, token, Unknown, prep)) && r == Recoverable
    case Ambiguous =>
      row.status == StepAmbiguous && row.output == Some(EffectRecord(false, resumed, key, token, Ambiguous, prep)) && r == Recoverable
    case _ =>
      row.status == StepError && row.output == None && r == Errored
  }

  /** What the adapter answers for a key it holds. */
  predicate Sees(env: Env, id: StepId, post: Post) {
    env.requested(id).Some? &&
    match env.requested(id).value
    case Verified => post == Verified
    case Unverified => post == Verified
    case other => post == other
  }

  function RowFor(post: Post, v: Value): (StepStatus, Option<Value>, StepResult) {
    match post
    case Verified => (StepSuccess, Some(v), Got(v))
    case Unknown => (StepUnknown, Some(v), Recoverable)
    case Ambiguous => (StepAmbiguous, Some(v), Recoverable)
    case _ => (StepError, None, Errored)
  }

  /** From `w` on the step checkpoints what is observed under `token`, unless its checkpoint is hindered. */
  ghost predicate Observes(env: Env, w: World, id: StepId, fid: nat, key: Key, resumed: bool, token: Token, prep: Option<string>, w': World, r: StepResult) {
    && w'.events == w.events && w'.adapter == w.adapter
    && (r.Interrupted? <==> Hindered(env, w.rec.control, id, CHECKPOINT))
    && (r.Interrupted? ==> w'.db == w.db)
    && (!r.Interrupted? ==> id in w'.db.steps)
    && (!r.Interrupted? ==> w'.db.steps[id].functionId == if id in w.db.steps then w.db.steps[id].functionId else fid)
    && (!r.Interrupted? ==> forall post | Sees(env, id, post) :: AsObserved(post, resumed, key, token, prep, w'.db.steps[id], r))
  }

  lemma SavedObserves(env: Env, w: World, id: StepId, fid: nat, key: Key, resumed: bool, prep: Option<string>)
    requires key in w.adapter && env.requested(id).Some?
    ensures var post := VerifyPostcondition(w.adapter, key, env.requested(id).value);
      var (status, output, r) := RowFor(post, EffectRecord(post.Verified?, resumed, key, w.adapter[key], post, prep));
      var (w', s) := Save(env, w, id, fid, status, output, Some(key), r);
      Observes(env, w, id, fid, key, resumed, w.adapter[key], prep, w', s)
  {
    var post := VerifyPostcondition(w.adapter, key, env.requested(id).value);
    var (status, output, r) := RowFor(post, EffectRecord(post.Verified?, resumed, key, w.adapter[key], post, prep));
    SavesExactlyWhen(env, w, id, fid, status, output, Some(key), r);
  }

  lemma PlainExactly(env: Env, w: World, id: StepId, work: Option<Value>)
    ensures id in w.db.steps ==> PlainStep(env, w, id, work).0 == w && FromItsRow(w.db.steps[id], PlainStep(env, w, id, work).1)
    ensures id !in w.db.steps ==> PlainAnswers(env, w, id, work, PlainStep(env, w, id, work).0, PlainStep(env, w, id, work).1)
  {
    if id !in w.db.steps {
      var (w1, allowed) := Allocate(env, w, id);
      AllocatesExactlyWhen(env, w, id);
      Splits(env, w.rec.control, id, ALLOCATION, CHECKPOINT);
      if allowed {
        var w2 := Log(w1, Worked(id));
        if work.None? {
          SavesExactlyWhen(env, w2, id, w.db.next, StepError, None, None, Errored);
        } else {
          SavesExactlyWhen(env, w2, id, w.db.next, StepSuccess, work, None, Got(work.value));
        }
      }
    }
  }

  /** A step without an effect and without a row: what its function returned is checkpointed as SUCCESS and
      answered, a throw is checkpointed as ERROR and thrown. */
  predicate PlainAnswers(env: Env, w: World, id: StepId, work: Option<Value>, w': World, r: StepResult) {
    && (r.Interrupted? <==> Hindered(env, w.rec.control, id, ALLOCATION + CHECKPOINT))
    && (r.Interrupted? ==> w'.db.steps == w.db.steps)
    && (!r.Interrupted? ==> id in w'.db.steps && w'.events == w.events + [Worked(id)] && w'.db.next == w.db.next + 1)
    && (!r.Interrupted? ==>
          match work
          case Some(v) => r == Got(v) && w'.db.steps[id] == Checkpoint(w.db.next, StepSuccess, Some(v), None)
          case None => r == Errored && w'.db.steps[id] == Checkpoint(w.db.next, StepError, None, None))
  }

  /** The call ended so without a row, and without leaving the database. */
  predicate Ends(w: World, w': World, r: StepResult, how: StepResult) {
    r == how && w'.db == w.db && w'.events == w.events && w'.adapter == w.adapter
  }

  /** A recoverable checkpoint: without its commit, or when the observation throws, the call fails and the row
      stays; otherwise the row becomes what is observed. */
  ghost predicate AmbiguousAnswers(env: Env, w: World, id: StepId, key: Key, fid: nat, w': World, r: StepResult) {
    if key !in w.adapter || env.requested(id).None? then Ends(w, w', r, Errored)
    else Observes(env, w, id, fid, key, true, w.adapter[key], None, w', r)
  }

  lemma AmbiguousExactly(env: Env, w: World, id: StepId, key: Key, fid: nat)
    ensures AmbiguousAnswers(env, w, id, key, fid, ResumeAmbiguous(env, w, id, key, fid).0, ResumeAmbiguous(env, w, id, key, fid).1)
  {
    if key in w.adapter && env.requested(id).Some? { SavedObserves(env, w, id, fid, key, true, None); }
  }

  /** The commit is there and its checkpoint is not: a row only for what can be claimed or looked at again. */
  ghost predicate LostAnswers(env: Env, w: World, id: StepId, key: Key, fid: nat, w': World, r: StepResult)
    requires key in w.adapter
  {
    if env.requested(id).None? || env.requested(id).value.Failed? || env.requested(id).value.Absent? then Ends(w, w', r, Errored)
    else Observes(env, w, id, fid, key, true, w.adapter[key], None, w', r)
  }

  lemma LostExactly(env: Env, w: World, id: StepId, key: Key, fid: nat)
    requires key in w.adapter
    ensures LostAnswers(env, w, id, key, fid, AfterLostCheckpoint(env, w, id, key, fid).0, AfterLostCheckpoint(env, w, id, key, fid).1)
  {
    if env.requested(id).Some? { SavedObserves(env, w, id, fid, key, true, None); }
  }

  /** Behind the commit: a throwing observation stops the workflow, any other is recorded with the prep's output. */
  lemma SettleExactly(env: Env, w: World, id: StepId, key: Key, fid: nat)
    requires key in w.adapter
    ensures var (w', r) := Settle(env, w, id, key, fid);
      if env.requested(id).None? then Ends(w, w', r, Stopped)
      else Observes(env, w, id, fid, key, false, w.adapter[key], PrepOf(env.work(id)), w', r)
  {
    if env.requested(id).Some? { SavedObserves(env, w, id, fid, key, false, PrepOf(env.work(id))); }
  }

  /** The text a prep function returned. */
  function PrepOf(work: Option<Value>): Option<string> {
    match work
    case Some(Json(text)) => Some(text)
    case _ => None
  }

  /** The world a call stands in once the points passed, with these calls made. */
  function Moved(env: Env, w: World, id: StepId, points: seq<Phase>, calls: seq<Event>): World {
    w.(events := w.events + calls, rec := w.rec.(control := Met(env, w.rec.control, id, points)))
  }

  /** Neither checkpoint nor commit exists. Prep runs once. If it throws, the step stops when its key reached the
      adapter meanwhile and is an ERROR otherwise. If it returns, the adapter is called once and holds the key
      under the next token (which someone else may have drawn meanwhile), and the observation decides. */
  ghost predicate DeliverAnswers(env: Env, w: World, id: StepId, key: Key, fid: nat, w': World, r: StepResult) {
    var prepared := Moved(env, w, id, [AfterPrep], [Prepared(id, key)]);
    var held := w.(adapter := w.adapter[key := w.nextToken]);
    var delivered := Moved(env, held, id, [AfterPrep, AfterCommit], [Prepared(id, key), Delivered(id, key)]);
    if env.dies(id, AfterPrep) then r == Interrupted && w'.db == w.db && w'.events == prepared.events
    else if env.work(id).None? then
      if env.meanwhile(id) then Ends(prepared.(adapter := held.adapter), w', r, Stopped)
      else
        && r == (if Hindered(env, prepared.rec.control, id, CHECKPOINT) then Interrupted else Errored)
        && (if r.Interrupted? then w'.db == w.db else Written(w, w', id, fid, StepError, None, Some(key)))
        && w'.adapter == w.adapter && w'.events == prepared.events
    else if env.dies(id, AfterCommit) then Ends(delivered, w', r, Interrupted)
    else if env.requested(id).None? then Ends(delivered, w', r, Stopped)
    else Observes(env, delivered, id, fid, key, false, w.nextToken, PrepOf(env.work(id)), w', r)
  }

  lemma DeliverExactly(env: Env, w: World, id: StepId, key: Key, fid: nat)
    requires key !in w.adapter
    ensures DeliverAnswers(env, w, id, key, fid, Deliver(env, w, id, key, fid).0, Deliver(env, w, id, key, fid).1)
  {
    Twice(env, w.rec.control, id, AfterPrep, AfterCommit);
    assert Met(env, w.rec.control, id, [AfterPrep]) == R.Run(w.rec.control, env.recovery(id, AfterPrep));
    var w1 := Log(w, Prepared(id, key));
    var w2 := Pass(env, if env.meanwhile(id) then Commit(w1, key) else w1, id, AfterPrep).0;
    if env.work(id).None? {
      SavesExactlyWhen(env, w2, id, fid, StepError, None, Some(key), Errored);
    } else {
      var w3 := Pass(env, Log(Commit(w2, key), Delivered(id, key)), id, AfterCommit).0;
      assert w3.adapter == w.adapter[key := w.nextToken];
      assert w3.events == w.events + [Prepared(id, key), Delivered(id, key)];
      SettleExactly(env, w3, id, key, fid);
    }
  }

  /** An effect-bound call: from its row when that is final, by observation when it is recoverable; a step without
      a row allocates first, and then looks for a commit that lost its checkpoint before it delivers. */
  ghost predicate BoundAnswers(env: Env, w: World, id: StepId, key: Key, w': World, r: StepResult) {
    if id in w.db.steps then
      var row := w.db.steps[id];
      if row.status.StepAmbiguous? || row.status.StepUnknown? then
        AmbiguousAnswers(env, w, id, match row.key case Some(k) => k case None => key, row.functionId, w', r)
      else w' == w && FromItsRow(row, r)
    else if Hindered(env, w.rec.control, id, ALLOCATION) then
      r == Interrupted && w'.db.steps == w.db.steps && w'.events == w.events && w'.adapter == w.adapter
    else
      var v := Moved(env, w, id, ALLOCATION, []).(db := w.db.(next := w.db.next + 1));
      if key in w.adapter then LostAnswers(env, v, id, key, w.db.next, w', r) else DeliverAnswers(env, v, id, key, w.db.next, w', r)
  }

  lemma BoundExactly(env: Env, w: World, id: StepId, key: Key)
    ensures BoundAnswers(env, w, id, key, BoundStep(env, w, id, key).0, BoundStep(env, w, id, key).1)
  {
    if id in w.db.steps {
      var row := w.db.steps[id];
      AmbiguousExactly(env, w, id, if row.key.Some? then row.key.value else key, row.functionId);
    } else {
      var (w1, allowed) := Allocate(env, w, id);
      AllocatesExactlyWhen(env, w, id);
      if allowed {
        assert w.events + [] == w.events;
        if key in w.adapter {
          LostExactly(env, w1, id, key, w.db.next);
        } else {
          DeliverExactly(env, w1, id, key, w.db.next);
        }
      }
    }
  }

  /** An approval: a signaled one is checkpointed with its payload, a cancelled one throws, any other waits. */
  predicate ApprovalAnswers(env: Env, w: World, id: StepId, w': World, r: StepResult) {
    if id in w.db.steps then w' == w && FromItsRow(w.db.steps[id], r)
    else if id in w.db.waits && w.db.waits[id].Signaled? then PlainAnswers(env, w, id, Some(Json(w.db.waits[id].payload)), w', r)
    else if id in w.db.waits && w.db.waits[id].WaitCancelled? then w' == w && r == Errored
    else
      && r == (if Hindered(env, w.rec.control, id, if id in w.db.waits then [Checkpointing] else [Starting, Checkpointing])
               then Interrupted else AwaitsApproval)
      && w'.db == (if r.Interrupted? then w.db else w.db.(status := WfWaiting, waits := w.db.waits[id := Waiting]))
      && w'.events == w.events && w'.adapter == w.adapter
  }

  lemma ApprovalExactly(env: Env, w: World, id: StepId)
    requires id in w.db.steps ==> w.db.steps[id].status.StepSuccess? || w.db.steps[id].status.StepError?
    ensures ApprovalAnswers(env, w, id, ApprovalStep(env, w, id).0, ApprovalStep(env, w, id).1)
  {
    if id in w.db.waits && w.db.waits[id].Signaled? { PlainExactly(env, w, id, Some(Json(w.db.waits[id].payload))); }
    Twice(env, w.rec.control, id, Starting, Checkpointing);
    assert Met(env, w.rec.control, id, [Checkpointing]) == R.Run(w.rec.control, env.recovery(id, Checkpointing));
  }

  /** What one context call answers and leaves behind, by the step's kind. */
  ghost predicate CallAnswers(p: Program, env: Env, w: World, id: StepId, w': World, r: StepResult) {
    match p.kind(id)
    case Plain => if id in w.db.steps then w' == w && FromItsRow(w.db.steps[id], r) else PlainAnswers(env, w, id, env.work(id), w', r)
    case Approval => ApprovalAnswers(env, w, id, w', r)
    case Bound => BoundAnswers(env, w, id, p.key(id), w', r)
  }

  /** Every context call of every resume, in whatever state a run brought about, and whatever dies, freezes, throws
      or reaches the adapter meanwhile. */
  lemma EveryCallAnswers(p: Program, env: Env, w: World, id: StepId)
    requires G.WellFormed(p, w)
    ensures CallAnswers(p, env, w, id, ContextCall(p, env, w, id).0, ContextCall(p, env, w, id).1)
  {
    if id in w.db.steps { assert G.RowOk(p, w, id); }
    match p.kind(id)
    case Plain => PlainExactly(env, w, id, env.work(id));
    case Approval => ApprovalExactly(env, w, id);
    case Bound => BoundExactly(env, w, id, p.key(id));
  }

  // ----- how a resume ends -----

  /** A resume that gets past its first check answers from its replay: SUCCESS with the body's value or ERROR when
      the body ended and nothing froze the writers by then, the replay's tables when the body stopped short of its
      end, and the tables it began with when it was interrupted, frozen out or lost. What left the database stays. */
  lemma ResumeEnds(p: Program, env: Env, w: World)
    requires !R.Run(w.rec.control, env.atStart).frozen && !Terminal(w.db.status)
    ensures var begun := Checked(Fall(w, env.atStart));
      var (end, r) := Replay(p.body, ContextOf(p, env), begun.(db := w.db.(status := WfPending)), [], env.calls);
      var w' := Resume(p, env, w);
      var over := r.Got? || r.Errored?;
      && w'.events == end.events && w'.adapter == end.adapter
      && w'.db == (if env.lostAtEnd || r.Interrupted? || (over && R.Run(end.rec.control, env.atEnd).frozen) then w.db
                   else if over then end.db.(status := w'.db.status, output := w'.db.output) else end.db)
      && (!env.lostAtEnd && over && !R.Run(end.rec.control, env.atEnd).frozen ==>
            match r
            case Got(v) => w'.db.status == WfSuccess && w'.db.output == Some(v)
            case _ => w'.db.status == WfError && w'.db.output == end.db.output)
  {
  }

  /** After `n` calls that answered, the body asks for another one. */
  predicate Outlasts(body: seq<Value> -> Action, call: Context, w: World, history: seq<Value>, n: nat)
    decreases n
  {
    body(history).Do? &&
    (n == 0 ||
     var (w1, r) := call(w, body(history).id);
     r.Got? && Outlasts(body, call, w1, history + [r.value], n - 1))
  }

  lemma {:induction false} OutlastedIsInterrupted(body: seq<Value> -> Action, call: Context, w: World, history: seq<Value>, n: nat)
    requires Outlasts(body, call, w, history, n)
    ensures Replay(body, call, w, history, n).1 == Interrupted
    decreases n
  {
    if n > 0 {
      var (w1, r) := call(w, body(history).id);
      OutlastedIsInterrupted(body, call, w1, history + [r.value], n - 1);
    }
  }

  /** A process that dies between two context calls leaves the tables as the resume found them. */
  lemma DeathLeavesTheTables(p: Program, env: Env, w: World)
    requires Outlasts(p.body, ContextOf(p, env), Checked(Fall(w, env.atStart)).(db := w.db.(status := WfPending)), [], env.calls)
    ensures Resume(p, env, w).db == w.db
  {
    OutlastedIsInterrupted(p.body, ContextOf(p, env), Checked(Fall(w, env.atStart)).(db := w.db.(status := WfPending)), [], env.calls);
  }

  lemma {:induction false} ReplayOnCheckpoints(p: Program, env: Env, w: World, history: seq<Value>, n: nat)
    requires Evaluate(p, w.db.steps, history, n).Some?
    ensures Replay(p.body, ContextOf(p, env), w, history, n) == (w, Got(Evaluate(p, w.db.steps, history, n).value))
    decreases n
  {
    if p.body(history).Do? {
      var id := p.body(history).id;
      assert ContextOf(p, env)(w, id) == (w, Got(OutputOf(w.db.steps[id])));
      ReplayOnCheckpoints(p, env, w, history + [OutputOf(w.db.steps[id])], n - 1);
    }
  }

  /** A workflow whose body ends on its checkpoints finishes: a resume that survives, and finds the writers open at
      both ends, stores the body's value without calling anything or touching a row. */
  lemma CheckpointedWorkflowFinishes(p: Program, env: Env, w: World)
    requires !Terminal(w.db.status) && Evaluate(p, w.db.steps, [], env.calls).Some?
    requires !R.Run(w.rec.control, env.atStart).frozen && !R.Run(R.Run(w.rec.control, env.atStart), env.atEnd).frozen && !env.lostAtEnd
    ensures Resume(p, env, w).db == w.db.(status := WfSuccess, output := Evaluate(p, w.db.steps, [], env.calls))
    ensures Resume(p, env, w).events == w.events && Resume(p, env, w).adapter == w.adapter
  {
    ReplayOnCheckpoints(p, env, Checked(Fall(w, env.atStart)).(db := w.db.(status := WfPending)), [], env.calls);
  }

  // ----- tokens -----

  /** The adapter's tokens were all drawn, each for one key. */
  ghost predicate TokensDistinct(w: World) {
    && (forall k | k in w.adapter :: w.adapter[k] < w.nextToken)
    && (forall k, j | k in w.adapter && j in w.adapter && k != j :: w.adapter[k] != w.adapter[j])
  }

  /** The adapter moves by commits of this key alone. */
  predicate CommitsOnly(w: World, w': World, key: Key) {
    (w'.adapter == w.adapter && w'.nextToken == w.nextToken)
    || (key !in w.adapter && w'.adapter == w.adapter[key := w.nextToken] && w'.nextToken == w.nextToken + 1)
  }

  lemma SettleCommits(env: Env, w: World, id: StepId, key: Key, fid: nat)
    requires key in w.adapter
    ensures var w' := Settle(env, w, id, key, fid).0; w'.adapter == w.adapter && w'.nextToken == w.nextToken
  {
  }

  lemma DeliverCommits(env: Env, w: World, id: StepId, key: Key, fid: nat)
    ensures CommitsOnly(w, Deliver(env, w, id, key, fid).0, key)
  {
    var w1 := Log(w, Prepared(id, key));
    var w2 := Pass(env, if env.meanwhile(id) then Commit(w1, key) else w1, id, AfterPrep).0;
    var w3 := Pass(env, Log(Commit(w2, key), Delivered(id, key)), id, AfterCommit).0;
    SettleCommits(env, w3, id, key, fid);
  }

  lemma ObservedCommits(env: Env, w: World, id: StepId, key: Key, fid: nat)
    ensures CommitsOnly(w, ResumeAmbiguous(env, w, id, key, fid).0, key)
    ensures key in w.adapter ==> CommitsOnly(w, AfterLostCheckpoint(env, w, id, key, fid).0, key)
  {
  }

  lemma CallCommits(p: Program, env: Env, w: World, id: StepId)
    ensures exists key :: CommitsOnly(w, ContextCall(p, env, w, id).0, key)
  {
    var key := p.key(id);
    var w' := ContextCall(p, env, w, id).0;
    match p.kind(id)
    case Plain => assert CommitsOnly(w, w', key);
    case Approval => assert CommitsOnly(w, w', key);
    case Bound =>
      if id in w.db.steps {
        var row := w.db.steps[id];
        var k := if row.key.Some? then row.key.value else key;
        ObservedCommits(env, w, id, k, row.functionId);
        assert CommitsOnly(w, w', k);
      } else {
        var w1 := Allocate(env, w, id).0;
        ObservedCommits(env, w1, id, key, w.db.next);
        DeliverCommits(env, w1, id, key, w.db.next);
        assert CommitsOnly(w, w', key);
      }
  }

  lemma CommitKeepsTokens(w: World, w': World, key: Key)
    requires TokensDistinct(w) && CommitsOnly(w, w', key)
    ensures TokensDistinct(w')
  {
  }

  lemma ResumeTokens(p: Program, env: Env, w: World)
    requires TokensDistinct(w)
    ensures TokensDistinct(Resume(p, env, w))
  {
    var inv := (v: World) => TokensDistinct(v);
    forall v: World, id: StepId | inv(v) ensures inv(ContextOf(p, env)(v, id).0) {
      CallCommits(p, env, v, id);
      var key :| CommitsOnly(v, ContextCall(p, env, v, id).0, key);
      CommitKeepsTokens(v, ContextCall(p, env, v, id).0, key);
    }
    var begun := Checked(Fall(w, env.atStart));
    G.ReplayKeeps(p.body, ContextOf(p, env), inv, begun.(db := begun.db.(status := WfPending)), [], env.calls);
  }

  /** Over every run the adapter gives every key its own token, whoever commits. */
  lemma {:induction false} TokensStayDistinct(p: Program, w: World, ops: seq<Op>)
    requires TokensDistinct(w)
    ensures TokensDistinct(Run(p, w, ops))
    decreases |ops|
  {
    if ops != [] {
      var u, op := Run(p, w, ops[..|ops| - 1]), ops[|ops| - 1];
      TokensStayDistinct(p, w, ops[..|ops| - 1]);
      match op
      case DoResume(env) => ResumeTokens(p, env, u);
      case OtherCommit(key) => CommitKeepsTokens(u, Commit(u, key), key);
      case _ =>
    }
  }
}
