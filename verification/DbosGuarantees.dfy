/**
 What every sequence of resumes, approval signals and foreign commits keeps, for every workflow body.
 */
module DbosGuarantees {
  import opened Wrappers
  import opened Effects
  import opened Dbos
  import R = Recovery

  // ----- what is invariant, and what may change from one state to a later one -----

  predicate RowOk(p: Program, w: World, id: StepId)
    requires id in w.db.steps
  {
    var c := w.db.steps[id];
    && c.functionId < w.db.next
    && (p.kind(id).Bound? ==> c.key == Some(p.key(id)) && RecordOk(w.adapter, p.key(id), c.status, c.output))
    && (!p.kind(id).Bound? ==> !RecoverableStatus(c.status))
  }

  /** What an effect-bound checkpoint stores: unless it is an ERROR, a record of the commit the adapter
      holds under the key, with its token, ok exactly for SUCCESS, which means VERIFIED. */
  predicate RecordOk(adapter: map<Key, Token>, key: Key, status: StepStatus, output: Option<Value>) {
    status.StepError? ||
    (key in adapter && output.Some? && output.value.EffectRecord?
     && output.value.key == key && output.value.token == adapter[key] && output.value.ok == status.StepSuccess?
     && output.value.post == (match status case StepSuccess => Verified case StepUnknown => Unknown case _ => Ambiguous))
  }

  ghost predicate WellFormed(p: Program, w: World) {
    && (forall id | id in w.db.steps :: RowOk(p, w, id))
    && (forall i, j | i in w.db.steps && j in w.db.steps && w.db.steps[i].functionId == w.db.steps[j].functionId :: i == j)
    && (forall i | 0 <= i < |w.events| && w.events[i].Delivered? :: w.events[i].key in w.adapter)
    && (forall i, j | 0 <= i < j < |w.events| && w.events[i].Delivered? && w.events[j].Delivered? :: w.events[i].key != w.events[j].key)
  }

  /** A SUCCESS or ERROR row is final; a recoverable row reaches SUCCESS only with a VERIFIED record. */
  predicate RowLater(c: Checkpoint, c': Checkpoint) {
    && c'.functionId == c.functionId
    && (c.status.StepSuccess? || c.status.StepError? ==> c' == c)
    && (RecoverableStatus(c.status) && c'.status.StepSuccess? ==>
          c'.output.Some? && c'.output.value.EffectRecord? && c'.output.value.ok && c'.output.value.post.Verified?)
  }

  /** A call out of the database that state `w` still permits. */
  predicate Permitted(w: World, e: Event) {
    && e.id !in w.db.steps
    && (!e.Worked? ==> e.key !in w.adapter)
  }

  ghost predicate Later(w: World, w': World) {
    && w.db.next <= w'.db.next
    && (forall id | id in w.db.steps :: id in w'.db.steps && RowLater(w.db.steps[id], w'.db.steps[id]))
    && (forall k | k in w.adapter :: k in w'.adapter && w'.adapter[k] == w.adapter[k])
    && |w.events| <= |w'.events| && w'.events[..|w.events|] == w.events
    && (forall i | |w.events| <= i < |w'.events| :: Permitted(w, w'.events[i]))
  }

  ghost predicate Good(p: Program, w0: World, w: World) {
    WellFormed(p, w) && Later(w0, w)
  }

  lemma LaterTransitive(u: World, v: World, w: World)
    requires Later(u, v) && Later(v, w)
    ensures Later(u, w)
  {
    assert w.events[..|u.events|] == w.events[..|v.events|][..|u.events|];
    forall i | |u.events| <= i < |w.events|
      ensures Permitted(u, w.events[i])
    {
      if i < |v.events| {
        assert w.events[i] == w.events[..|v.events|][i];
        assert Permitted(u, v.events[i]);
      } else {
        assert Permitted(v, w.events[i]);
      }
    }
  }

  // ----- the small changes a step is made of -----

  /** Nothing kept here looks at the recovery record. */
  lemma RestGood(p: Program, w0: World, w: World, w': World)
    requires Good(p, w0, w) && SameRest(w, w')
    ensures Good(p, w0, w')
  {
    assert forall i | i in w'.db.steps :: RowOk(p, w, i) ==> RowOk(p, w', i);
  }

  lemma AllocateGood(p: Program, env: Env, w0: World, w: World, id: StepId)
    requires Good(p, w0, w)
    ensures Good(p, w0, Allocate(env, w, id).0)
    ensures var (w', ok) := Allocate(env, w, id);
      && w'.db == w.db.(next := w'.db.next) && w'.adapter == w.adapter && w'.events == w.events
      && (ok ==> w'.db.next == w.db.next + 1)
  {
    var (w1, allowed) := Guard(env, w, id, Allocating);
    RestGood(p, w0, w, w1);
    if allowed {
      var w2 := Advance(w1);
      assert forall i | i in w2.db.steps :: RowOk(p, w1, i) ==> RowOk(p, w2, i);
      RestGood(p, w0, w2, Guard(env, w2, id, Starting).0);
    }
  }

  lemma SaveGood(p: Program, env: Env, w0: World, w: World, id: StepId, fid: nat, status: StepStatus, output: Option<Value>, key: Option<Key>, r: StepResult)
    requires Good(p, w0, w) && Good(p, w0, Write(w, id, fid, status, output, key))
    ensures Good(p, w0, Save(env, w, id, fid, status, output, key, r).0)
  {
    var w' := Save(env, w, id, fid, status, output, key, r).0;
    if SameRest(w, w') {
      RestGood(p, w0, w, w');
    } else {
      RestGood(p, w0, Write(w, id, fid, status, output, key), w');
    }
  }

  lemma LogGood(p: Program, w0: World, w: World, e: Event)
    requires Good(p, w0, w) && Permitted(w0, e)
    requires e.Delivered? ==> e.key in w.adapter && forall i | 0 <= i < |w.events| && w.events[i].Delivered? :: w.events[i].key != e.key
    ensures Good(p, w0, Log(w, e))
  {
    var w' := Log(w, e);
    assert w'.events[..|w0.events|] == w.events[..|w0.events|];
    assert forall i | i in w'.db.steps :: RowOk(p, w, i) ==> RowOk(p, w', i);
    assert forall i | 0 <= i < |w.events| :: w'.events[i] == w.events[i];
  }

  lemma CommitGood(p: Program, w0: World, w: World, key: Key)
    requires Good(p, w0, w)
    ensures Good(p, w0, Commit(w, key))
  {
    var w' := Commit(w, key);
    assert forall i | i in w'.db.steps :: RowOk(p, w, i) ==> RowOk(p, w', i);
  }

  /** A new row under an unused function id. */
  lemma InsertGood(p: Program, w0: World, w: World, id: StepId, fid: nat, status: StepStatus, output: Option<Value>, key: Option<Key>)
    requires Good(p, w0, w) && id !in w.db.steps && fid < w.db.next
    requires forall j | j in w.db.steps :: w.db.steps[j].functionId != fid
    requires p.kind(id).Bound? ==> key == Some(p.key(id)) && RecordOk(w.adapter, p.key(id), status, output)
    requires !p.kind(id).Bound? ==> !RecoverableStatus(status)
    ensures Good(p, w0, Write(w, id, fid, status, output, key))
  {
    var w' := Write(w, id, fid, status, output, key);
    forall i | i in w'.db.steps ensures RowOk(p, w', i) {
      if i != id { assert RowOk(p, w, i); }
    }
  }

  /** A recoverable row settled or refreshed. */
  lemma UpdateGood(p: Program, w0: World, w: World, id: StepId, status: StepStatus, output: Option<Value>)
    requires Good(p, w0, w) && id in w.db.steps && RecoverableStatus(w.db.steps[id].status)
    requires RecordOk(w.adapter, p.key(id), status, output)
    ensures Good(p, w0, Write(w, id, w.db.steps[id].functionId, status, output, Some(p.key(id))))
  {
    var w' := Write(w, id, w.db.steps[id].functionId, status, output, Some(p.key(id)));
    assert RowOk(p, w, id);
    forall i | i in w'.db.steps ensures RowOk(p, w', i) {
      if i != id { assert RowOk(p, w, i); }
    }
  }

  // ----- steps -----

  lemma PlainStepGood(p: Program, env: Env, w0: World, w: World, id: StepId, work: Option<Value>)
    requires Good(p, w0, w) && !p.kind(id).Bound?
    ensures Good(p, w0, PlainStep(env, w, id, work).0)
  {
    if id !in w.db.steps {
      var (w1, allowed) := Allocate(env, w, id);
      AllocateGood(p, env, w0, w, id);
      if allowed {
        assert id !in w0.db.steps;
        var w2 := Log(w1, Worked(id));
        LogGood(p, w0, w1, Worked(id));
        assert forall j | j in w.db.steps :: RowOk(p, w, j);
        var status := if work.None? then StepError else StepSuccess;
        InsertGood(p, w0, w2, id, w.db.next, status, work, None);
        SaveGood(p, env, w0, w2, id, w.db.next, status, work, None, if work.None? then Errored else Got(work.value));
      }
    }
  }

  lemma ResumeAmbiguousGood(p: Program, env: Env, w0: World, w: World, id: StepId)
    requires Good(p, w0, w) && p.kind(id).Bound? && id in w.db.steps && RecoverableStatus(w.db.steps[id].status)
    ensures Good(p, w0, ResumeAmbiguous(env, w, id, p.key(id), w.db.steps[id].functionId).0)
  {
    var key, fid := p.key(id), w.db.steps[id].functionId;
    assert RowOk(p, w, id);
    var post := Observed(env, w, id, key);
    if post.Some? {
      var v := EffectRecord(post.value.Verified?, true, key, w.adapter[key], post.value, None);
      if post.value.Verified? {
        UpdateGood(p, w0, w, id, StepSuccess, Some(v));
        SaveGood(p, env, w0, w, id, fid, StepSuccess, Some(v), Some(key), Got(v));
      } else if RecoverablePost(post.value) {
        UpdateGood(p, w0, w, id, StatusFor(post.value), Some(v));
        SaveGood(p, env, w0, w, id, fid, StatusFor(post.value), Some(v), Some(key), Recoverable);
      } else {
        UpdateGood(p, w0, w, id, StepError, None);
        SaveGood(p, env, w0, w, id, fid, StepError, None, Some(key), Errored);
      }
    }
  }

  /** The step has no row yet, and `fid` is allocated and unused. */
  ghost predicate Unwritten(p: Program, w: World, id: StepId, fid: nat) {
    p.kind(id).Bound? && id !in w.db.steps && fid < w.db.next && forall j | j in w.db.steps :: w.db.steps[j].functionId != fid
  }

  lemma AfterLostCheckpointGood(p: Program, env: Env, w0: World, w: World, id: StepId, fid: nat)
    requires Good(p, w0, w) && Unwritten(p, w, id, fid) && p.key(id) in w.adapter
    ensures Good(p, w0, AfterLostCheckpoint(env, w, id, p.key(id), fid).0)
  {
    var key := p.key(id);
    var post := Observed(env, w, id, key);
    if post.Some? && (post.value.Verified? || RecoverablePost(post.value)) {
      var v := EffectRecord(post.value.Verified?, true, key, w.adapter[key], post.value, None);
      var status := if post.value.Verified? then StepSuccess else StatusFor(post.value);
      InsertGood(p, w0, w, id, fid, status, Some(v), Some(key));
      SaveGood(p, env, w0, w, id, fid, status, Some(v), Some(key), if post.value.Verified? then Got(v) else Recoverable);
    }
  }

  lemma SettleGood(p: Program, env: Env, w0: World, w: World, id: StepId, fid: nat)
    requires Good(p, w0, w) && Unwritten(p, w, id, fid) && p.key(id) in w.adapter
    ensures Good(p, w0, Settle(env, w, id, p.key(id), fid).0)
  {
    var key := p.key(id);
    var post := Observed(env, w, id, key);
    if post.Some? {
      var v := EffectRecord(post.value.Verified?, false, key, w.adapter[key], post.value, PrepText(env.work(id)));
      if RecoverablePost(post.value) {
        InsertGood(p, w0, w, id, fid, StatusFor(post.value), Some(v), Some(key));
        SaveGood(p, env, w0, w, id, fid, StatusFor(post.value), Some(v), Some(key), Recoverable);
      } else if !post.value.Verified? {
        InsertGood(p, w0, w, id, fid, StepError, None, Some(key));
        SaveGood(p, env, w0, w, id, fid, StepError, None, Some(key), Errored);
      } else {
        InsertGood(p, w0, w, id, fid, StepSuccess, Some(v), Some(key));
        SaveGood(p, env, w0, w, id, fid, StepSuccess, Some(v), Some(key), Got(v));
      }
    }
  }

  lemma DeliveredGood(p: Program, w0: World, w: World, w2: World, id: StepId)
    requires WellFormed(p, w) && p.key(id) !in w.adapter && Permitted(w0, Delivered(id, p.key(id)))
    requires w2.events == w.events + [Prepared(id, p.key(id))] && Good(p, w0, Commit(w2, p.key(id)))
    ensures Good(p, w0, Log(Commit(w2, p.key(id)), Delivered(id, p.key(id))))
  {
    var w3 := Commit(w2, p.key(id));
    assert forall i | 0 <= i < |w.events| :: w3.events[i] == w.events[i];
    LogGood(p, w0, w3, Delivered(id, p.key(id)));
  }

  /** Prep has run, and whatever reached the adapter meanwhile did. */
  lemma PreparedGood(p: Program, env: Env, w0: World, w: World, id: StepId) returns (w2: World)
    requires Good(p, w0, w) && id !in w.db.steps && p.key(id) !in w.adapter
    ensures var w1 := Log(w, Prepared(id, p.key(id)));
      w2 == Pass(env, if env.meanwhile(id) then Commit(w1, p.key(id)) else w1, id, AfterPrep).0
    ensures Good(p, w0, w2) && w2.db == w.db && w2.events == w.events + [Prepared(id, p.key(id))]
    ensures Permitted(w0, Delivered(id, p.key(id)))
  {
    var key := p.key(id);
    assert Permitted(w0, Prepared(id, key)) && Permitted(w0, Delivered(id, key));
    var w1 := Log(w, Prepared(id, key));
    LogGood(p, w0, w, Prepared(id, key));
    CommitGood(p, w0, w1, key);
    var u := if env.meanwhile(id) then Commit(w1, key) else w1;
    w2 := Pass(env, u, id, AfterPrep).0;
    RestGood(p, w0, u, w2);
  }

  lemma DeliverGood(p: Program, env: Env, w0: World, w: World, id: StepId, fid: nat)
    requires Good(p, w0, w) && Unwritten(p, w, id, fid) && p.key(id) !in w.adapter
    ensures Good(p, w0, Deliver(env, w, id, p.key(id), fid).0)
  {
    var key := p.key(id);
    var w2 := PreparedGood(p, env, w0, w, id);
    if !env.dies(id, AfterPrep) {
      if env.work(id).None? {
        if key !in w2.adapter {
          InsertGood(p, w0, w2, id, fid, StepError, None, Some(key));
          SaveGood(p, env, w0, w2, id, fid, StepError, None, Some(key), Errored);
        }
      } else {
        CommitGood(p, w0, w2, key);
        DeliveredGood(p, w0, w, w2, id);
        var u := Log(Commit(w2, key), Delivered(id, key));
        var w3 := Pass(env, u, id, AfterCommit).0;
        RestGood(p, w0, u, w3);
        SettleGood(p, env, w0, w3, id, fid);
      }
    }
  }

  lemma WaitGood(p: Program, env: Env, w0: World, w: World, id: StepId)
    requires Good(p, w0, w)
    ensures Good(p, w0, ApprovalStep(env, w, id).0) || (id in w.db.waits && w.db.waits[id].Signaled?)
  {
    var (w1, inserted) := if id in w.db.waits then (w, true) else Guard(env, w, id, Starting);
    RestGood(p, w0, w, w1);
    if inserted {
      var (w2, _) := Guard(env, w1, id, Checkpointing);
      RestGood(p, w0, w1, w2);
      StatusGood(p, w0, w2, w2.db.(status := WfWaiting, waits := w2.db.waits[id := Waiting]));
    }
  }

  lemma BoundStepGood(p: Program, env: Env, w0: World, w: World, id: StepId)
    requires Good(p, w0, w) && p.kind(id).Bound?
    ensures Good(p, w0, BoundStep(env, w, id, p.key(id)).0)
  {
    if id in w.db.steps {
      assert RowOk(p, w, id);
      if RecoverableStatus(w.db.steps[id].status) {
        ResumeAmbiguousGood(p, env, w0, w, id);
      }
    } else {
      var (w1, allowed) := Allocate(env, w, id);
      AllocateGood(p, env, w0, w, id);
      if allowed {
        assert forall j | j in w.db.steps :: RowOk(p, w, j);
        if p.key(id) in w.adapter {
          AfterLostCheckpointGood(p, env, w0, w1, id, w.db.next);
        } else {
          DeliverGood(p, env, w0, w1, id, w.db.next);
        }
      }
    }
  }

  lemma ContextCallGood(p: Program, env: Env, w0: World, w: World, id: StepId)
    requires Good(p, w0, w)
    ensures Good(p, w0, ContextCall(p, env, w, id).0)
  {
    match p.kind(id)
    case Plain => PlainStepGood(p, env, w0, w, id, env.work(id));
    case Approval =>
      if id in w.db.waits && w.db.waits[id].Signaled? {
        PlainStepGood(p, env, w0, w, id, Some(Json(w.db.waits[id].payload)));
      } else {
        WaitGood(p, env, w0, w, id);
      }
    case Bound => BoundStepGood(p, env, w0, w, id);
  }

  /** The workflow's status, output and waits are irrelevant to what is kept here. */
  lemma StatusGood(p: Program, w0: World, w: World, db: Tables)
    requires Good(p, w0, w) && db.steps == w.db.steps && db.next == w.db.next
    ensures Good(p, w0, w.(db := db))
  {
    var w' := w.(db := db);
    assert forall i | i in w'.db.steps :: RowOk(p, w, i) ==> RowOk(p, w', i);
  }

  /** What every context call keeps, a whole replay keeps. */
  lemma {:induction false} ReplayKeeps(body: seq<Value> -> Action, call: Context, inv: World -> bool, w: World, history: seq<Value>, n: nat)
    requires inv(w) && forall v: World, id: StepId :: inv(v) ==> inv(call(v, id).0)
    ensures inv(Replay(body, call, w, history, n).0)
    decreases n
  {
    if body(history).Do? && n > 0 {
      var (w1, r) := call(w, body(history).id);
      if r.Got? {
        ReplayKeeps(body, call, inv, w1, history + [r.value], n - 1);
      }
    }
  }

  lemma ReplayGood(p: Program, env: Env, w0: World, w: World, history: seq<Value>, n: nat)
    requires Good(p, w0, w)
    ensures Good(p, w0, Replay(p.body, ContextOf(p, env), w, history, n).0)
  {
    var inv := (v: World) => Good(p, w0, v);
    forall v: World, id: StepId | inv(v) ensures inv(ContextOf(p, env)(v, id).0) {
      ContextCallGood(p, env, w0, v, id);
    }
    ReplayKeeps(p.body, ContextOf(p, env), inv, w, history, n);
  }

  lemma RollBackGood(p: Program, w0: World, w: World)
    requires WellFormed(p, w0) && Good(p, w0, w)
    ensures Good(p, w0, RollBack(w0, w))
  {
    var w' := RollBack(w0, w);
    assert forall i | i in w'.db.steps :: RowOk(p, w0, i) ==> RowOk(p, w', i);
  }

  lemma FinishGood(p: Program, env: Env, w: World, w1: World, r: StepResult)
    requires WellFormed(p, w) && Good(p, w, w1)
    ensures Good(p, w, Finish(env, w, w1, r))
  {
    if r.Interrupted? {
      RollBackGood(p, w, w1);
    } else if r.Got? || r.Errored? {
      var w2 := Fall(w1, env.atEnd);
      RestGood(p, w, w1, w2);
      if w2.rec.control.frozen {
        RollBackGood(p, w, w2);
      } else {
        RestGood(p, w, w2, Checked(w2));
        StatusGood(p, w, Checked(w2), Finish(env, w, w1, r).db);
      }
    }
  }

  lemma TransactionGood(p: Program, env: Env, w: World)
    requires WellFormed(p, w)
    ensures Good(p, w, Transaction(p, env, w))
  {
    var entered := w.(db := w.db.(status := WfPending));
    StatusGood(p, w, w, entered.db);
    ReplayGood(p, env, w, entered, [], env.calls);
    var (w1, r) := Replay(p.body, ContextOf(p, env), entered, [], env.calls);
    FinishGood(p, env, w, w1, r);
  }

  /** A state that differs from a well-formed one in the recovery record alone. */
  lemma RestLater(p: Program, w: World, w': World)
    requires WellFormed(p, w) && SameRest(w, w')
    ensures Good(p, w, w') && WellFormed(p, w')
  {
    Reflexive(w);
    RestGood(p, w, w, w');
  }

  lemma ResumeGood(p: Program, env: Env, w: World)
    requires WellFormed(p, w)
    ensures Good(p, w, Resume(p, env, w))
  {
    var w0 := Fall(w, env.atStart);
    RestLater(p, w, w0);
    RestLater(p, w, Checked(w0));
    if !w0.rec.control.frozen && !Terminal(w.db.status) {
      var done := Transaction(p, env, Checked(w0));
      TransactionGood(p, env, Checked(w0));
      LaterTransitive(w, Checked(w0), done);
      RestGood(p, w, done, Fall(done, env.atCommit));
      RollBackGood(p, w, Fall(done, env.atCommit));
    }
  }

  lemma ApplyGood(p: Program, w: World, op: Op)
    requires WellFormed(p, w)
    ensures Good(p, w, Apply(p, w, op))
  {
    match op
    case DoResume(env) => ResumeGood(p, env, w);
    case Signal(id, payload) => StatusGood(p, w, w, SignalApproval(w, id, payload).db);
    case OtherCommit(key) => CommitGood(p, w, w, key);
    case Restore(step) => RestLater(p, w, Fall(w, [step]));
  }

  lemma {:induction false} RunWellFormed(p: Program, w: World, ops: seq<Op>)
    requires Started(w)
    ensures WellFormed(p, Run(p, w, ops))
    decreases |ops|
  {
    if ops != [] {
      RunWellFormed(p, w, ops[..|ops| - 1]);
      ApplyGood(p, Run(p, w, ops[..|ops| - 1]), ops[|ops| - 1]);
    }
  }

  lemma {:induction false} RunLater(p: Program, w: World, ops: seq<Op>, m: nat)
    requires Started(w) && m <= |ops|
    ensures Later(Run(p, w, ops[..m]), Run(p, w, ops))
    decreases |ops|
  {
    if m == |ops| {
      assert ops[..m] == ops;
    } else {
      var init := ops[..|ops| - 1];
      RunLater(p, w, init, m);
      assert init[..m] == ops[..m];
      RunWellFormed(p, w, init);
      ApplyGood(p, Run(p, w, init), ops[|ops| - 1]);
      LaterTransitive(Run(p, w, ops[..m]), Run(p, w, init), Run(p, w, ops));
    }
  }

  // ----- the guarantees -----

  /** A step with a durable checkpoint is never run, prepared or delivered again; a SUCCESS or ERROR
      checkpoint keeps its row, output included, to the end of every run. */
  lemma CheckpointedNeverRunsAgain(p: Program, w: World, ops: seq<Op>, m: nat, id: StepId)
    requires Started(w) && m <= |ops| && id in Run(p, w, ops[..m]).db.steps
    ensures var u, v := Run(p, w, ops[..m]), Run(p, w, ops);
      && id in v.db.steps && v.db.steps[id].functionId == u.db.steps[id].functionId
      && (u.db.steps[id].status.StepSuccess? || u.db.steps[id].status.StepError? ==> v.db.steps[id] == u.db.steps[id])
      && |u.events| <= |v.events| && forall i | |u.events| <= i < |v.events| :: v.events[i].id != id
  {
    RunLater(p, w, ops, m);
  }

  /** Once the adapter holds a key, no later resume calls prep or commit for it, and the token stays. */
  lemma HeldKeyNeverRedelivered(p: Program, w: World, ops: seq<Op>, m: nat, key: Key)
    requires Started(w) && m <= |ops| && key in Run(p, w, ops[..m]).adapter
    ensures var u, v := Run(p, w, ops[..m]), Run(p, w, ops);
      && key in v.adapter && v.adapter[key] == u.adapter[key] && |u.events| <= |v.events|
      && forall i | |u.events| <= i < |v.events| && !v.events[i].Worked? :: v.events[i].key != key
  {
    RunLater(p, w, ops, m);
  }

  /** Over a whole run each idempotency key is delivered at most once, even by steps sharing it. */
  lemma DeliveredAtMostOnce(p: Program, w: World, ops: seq<Op>, i: nat, j: nat)
    requires Started(w)
    requires var e := Run(p, w, ops).events; i < j < |e| && e[i].Delivered? && e[j].Delivered?
    ensures Run(p, w, ops).events[i].key != Run(p, w, ops).events[j].key
  {
    RunWellFormed(p, w, ops);
  }

  /** Checkpoint function ids are distinct and below next_function_id, which never decreases. */
  lemma FunctionIdsDistinct(p: Program, w: World, ops: seq<Op>, m: nat)
    requires Started(w) && m <= |ops|
    ensures var db := Run(p, w, ops).db;
      && (forall id | id in db.steps :: db.steps[id].functionId < db.next)
      && (forall i, j | i in db.steps && j in db.steps && i != j :: db.steps[i].functionId != db.steps[j].functionId)
    ensures Run(p, w, ops[..m]).db.next <= Run(p, w, ops).db.next
  {
    RunWellFormed(p, w, ops);
    RunLater(p, w, ops, m);
    var v := Run(p, w, ops);
    assert forall id | id in v.db.steps :: RowOk(p, v, id);
  }

  /** Every non-ERROR checkpoint of an effect-bound step records the commit the adapter holds under the
      step's key: its token, VERIFIED exactly when the checkpoint is SUCCESS. */
  lemma CheckpointsStandOnCommits(p: Program, w: World, ops: seq<Op>, id: StepId)
    requires Started(w) && id in Run(p, w, ops).db.steps && p.kind(id).Bound?
    ensures var u := Run(p, w, ops);
      u.db.steps[id].key == Some(p.key(id)) && RecordOk(u.adapter, p.key(id), u.db.steps[id].status, u.db.steps[id].output)
  {
    RunWellFormed(p, w, ops);
    assert RowOk(p, Run(p, w, ops), id);
  }

  // ----- recoverable checkpoints -----

  /** A context call writes no other step's row and never marks the workflow SUCCESS. */
  ghost predicate TouchesOnly(w: World, w': World, call: StepId) {
    && (forall id | id in w.db.steps && id != call :: id in w'.db.steps && w'.db.steps[id] == w.db.steps[id])
    && (w'.db.status == w.db.status || w'.db.status.WfWaiting?)
  }

  /** And a step other than an approval wait leaves the workflow's status and waits alone. */
  ghost predicate Quiet(w: World, w': World, call: StepId) {
    && (forall id | id in w.db.steps && id != call :: id in w'.db.steps && w'.db.steps[id] == w.db.steps[id])
    && w'.db.steps.Keys <= w.db.steps.Keys + {call} && w'.db.status == w.db.status && w'.db.waits == w.db.waits
  }

  lemma SaveQuiet(env: Env, w: World, id: StepId, fid: nat, status: StepStatus, output: Option<Value>, key: Option<Key>, r: StepResult)
    ensures Quiet(w, Save(env, w, id, fid, status, output, key, r).0, id)
  {
  }

  lemma PlainQuiet(env: Env, w: World, id: StepId, work: Option<Value>)
    ensures Quiet(w, PlainStep(env, w, id, work).0, id)
  {
    var w2 := Log(Allocate(env, w, id).0, Worked(id));
    assert Quiet(w, w2, id);
    SaveQuiet(env, w2, id, w.db.next, StepError, None, None, Errored);
    if work.Some? { SaveQuiet(env, w2, id, w.db.next, StepSuccess, work, None, Got(work.value)); }
  }

  lemma SettleQuiet(env: Env, w: World, id: StepId, key: Key, fid: nat)
    requires key in w.adapter
    ensures Quiet(w, Settle(env, w, id, key, fid).0, id)
  {
    var post := Observed(env, w, id, key);
    if post.Some? {
      var v := EffectRecord(post.value.Verified?, false, key, w.adapter[key], post.value, PrepText(env.work(id)));
      SaveQuiet(env, w, id, fid, StatusFor(post.value), Some(v), Some(key), Recoverable);
      SaveQuiet(env, w, id, fid, StepError, None, Some(key), Errored);
      SaveQuiet(env, w, id, fid, StepSuccess, Some(v), Some(key), Got(v));
    }
  }

  lemma AmbiguousQuiet(env: Env, w: World, id: StepId, key: Key, fid: nat)
    ensures Quiet(w, ResumeAmbiguous(env, w, id, key, fid).0, id)
  {
    var post := Observed(env, w, id, key);
    if key in w.adapter && post.Some? {
      var v := EffectRecord(post.value.Verified?, true, key, w.adapter[key], post.value, None);
      SaveQuiet(env, w, id, fid, StepSuccess, Some(v), Some(key), Got(v));
      SaveQuiet(env, w, id, fid, StatusFor(post.value), Some(v), Some(key), Recoverable);
      SaveQuiet(env, w, id, fid, StepError, None, Some(key), Errored);
    }
  }

  lemma LostQuiet(env: Env, w: World, id: StepId, key: Key, fid: nat)
    requires key in w.adapter
    ensures Quiet(w, AfterLostCheckpoint(env, w, id, key, fid).0, id)
  {
    var post := Observed(env, w, id, key);
    if post.Some? {
      var v := EffectRecord(post.value.Verified?, true, key, w.adapter[key], post.value, None);
      SaveQuiet(env, w, id, fid, StatusFor(post.value), Some(v), Some(key), Recoverable);
      SaveQuiet(env, w, id, fid, StepSuccess, Some(v), Some(key), Got(v));
    }
  }

  lemma DeliverQuiet(env: Env, w: World, id: StepId, key: Key, fid: nat)
    ensures Quiet(w, Deliver(env, w, id, key, fid).0, id)
  {
    var w1 := Log(w, Prepared(id, key));
    var w2 := Pass(env, if env.meanwhile(id) then Commit(w1, key) else w1, id, AfterPrep).0;
    assert w2.db == w.db;
    SaveQuiet(env, w2, id, fid, StepError, None, Some(key), Errored);
    var w3 := Pass(env, Log(Commit(w2, key), Delivered(id, key)), id, AfterCommit).0;
    assert w3.db == w.db;
    SettleQuiet(env, w3, id, key, fid);
  }

  lemma BoundQuiet(env: Env, w: World, id: StepId, key: Key)
    ensures Quiet(w, BoundStep(env, w, id, key).0, id)
  {
    if id in w.db.steps {
      var k := if w.db.steps[id].key.Some? then w.db.steps[id].key.value else key;
      AmbiguousQuiet(env, w, id, k, w.db.steps[id].functionId);
    } else {
      var (w1, allowed) := Allocate(env, w, id);
      assert Quiet(w, w1, id);
      if allowed {
        if key in w1.adapter {
          LostQuiet(env, w1, id, key, w.db.next);
        } else {
          DeliverQuiet(env, w1, id, key, w.db.next);
        }
      }
    }
  }

  lemma ContextCallTouchesOnly(p: Program, env: Env, w: World, id: StepId)
    ensures TouchesOnly(w, ContextCall(p, env, w, id).0, id)
  {
    match p.kind(id)
    case Plain => PlainQuiet(env, w, id, env.work(id));
    case Approval =>
      if id in w.db.waits && w.db.waits[id].Signaled? {
        PlainQuiet(env, w, id, Some(Json(w.db.waits[id].payload)));
      }
    case Bound => BoundQuiet(env, w, id, p.key(id));
  }

  predicate AskedToVerify(env: Env, id: StepId) {
    env.requested(id).Some? && (env.requested(id).value.Verified? || env.requested(id).value.Unverified?)
  }

  /** A row that is not SUCCESS. */
  ghost predicate Unsettled(p: Program, w: World, id: StepId) {
    WellFormed(p, w) && id in w.db.steps && !w.db.steps[id].status.StepSuccess?
  }

  /** The call of a recoverable step settles it only on a VERIFIED observation. */
  lemma CallSettles(p: Program, env: Env, w: World, call: StepId, id: StepId)
    requires Unsettled(p, w, id) && !AskedToVerify(env, id)
    ensures Unsettled(p, ContextCall(p, env, w, call).0, id)
  {
    Reflexive(w);
    ContextCallGood(p, env, w, w, call);
    if call == id {
      assert RowOk(p, w, id);
      if RecoverableStatus(w.db.steps[id].status) {
        AmbiguousStays(env, w, id, p.key(id));
      }
    } else {
      ContextCallTouchesOnly(p, env, w, call);
    }
  }

  lemma AmbiguousStays(env: Env, w: World, id: StepId, key: Key)
    requires id in w.db.steps && RecoverableStatus(w.db.steps[id].status) && !AskedToVerify(env, id)
    ensures var w' := ResumeAmbiguous(env, w, id, key, w.db.steps[id].functionId).0;
      id in w'.db.steps && !w'.db.steps[id].status.StepSuccess?
  {
  }

  lemma ReplaySettles(p: Program, env: Env, w: World, history: seq<Value>, n: nat, id: StepId)
    requires Unsettled(p, w, id) && !AskedToVerify(env, id)
    ensures Unsettled(p, Replay(p.body, ContextOf(p, env), w, history, n).0, id)
  {
    var inv := (v: World) => Unsettled(p, v, id);
    forall v: World, call: StepId | inv(v) ensures inv(ContextOf(p, env)(v, call).0) {
      CallSettles(p, env, v, call, id);
    }
    ReplayKeeps(p.body, ContextOf(p, env), inv, w, history, n);
  }

  lemma TransactionSettles(p: Program, env: Env, w: World, id: StepId)
    requires Unsettled(p, w, id) && !AskedToVerify(env, id)
    ensures var s := Transaction(p, env, w).db.steps; id in s && !s[id].status.StepSuccess?
  {
    var entered := w.(db := w.db.(status := WfPending));
    Reflexive(w);
    StatusGood(p, w, w, entered.db);
    ReplaySettles(p, env, entered, [], env.calls, id);
  }

  lemma ResumeSettles(p: Program, env: Env, w: World, id: StepId)
    requires WellFormed(p, w) && id in w.db.steps && RecoverableStatus(w.db.steps[id].status)
    ensures var s := Resume(p, env, w).db.steps;
      id in s && s[id].status.StepSuccess? ==> AskedToVerify(env, id)
  {
    var begun := Checked(Fall(w, env.atStart));
    RestLater(p, w, begun);
    if !AskedToVerify(env, id) { TransactionSettles(p, env, begun, id); }
  }

  /** An AMBIGUOUS or UNKNOWN checkpoint becomes SUCCESS only in a resume that observed VERIFIED for its
      key: the observation was asked for, and the adapter held the commit. */
  lemma SettledOnlyWhenVerified(p: Program, w: World, ops: seq<Op>, env: Env, id: StepId)
    requires Started(w)
    requires var u := Run(p, w, ops);
      && id in u.db.steps && RecoverableStatus(u.db.steps[id].status)
      && id in Resume(p, env, u).db.steps && Resume(p, env, u).db.steps[id].status.StepSuccess?
    ensures env.requested(id).Some?
    ensures VerifyPostcondition(Run(p, w, ops).adapter, p.key(id), env.requested(id).value).Verified?
    ensures Resume(p, env, Run(p, w, ops)).db.steps[id].output.Some?
    ensures var v := Resume(p, env, Run(p, w, ops)).db.steps[id].output.value;
      v.EffectRecord? && v.ok && v.post.Verified?
  {
    var u := Run(p, w, ops);
    RunWellFormed(p, w, ops);
    assert RowOk(p, u, id);
    ResumeSettles(p, env, u, id);
    ResumeGood(p, env, u);
    assert RowLater(u.db.steps[id], Resume(p, env, u).db.steps[id]);
  }

  // ----- the output of a finished workflow -----

  /** A value handed to the body is the SUCCESS checkpoint of its step. */
  ghost predicate Checkpointed(id: StepId, out: (World, StepResult)) {
    out.1.Got? ==>
      id in out.0.db.steps && out.0.db.steps[id].status.StepSuccess? && OutputOf(out.0.db.steps[id]) == out.1.value
  }

  lemma PlainGot(env: Env, w: World, id: StepId, work: Option<Value>)
    requires id in w.db.steps ==> !RecoverableStatus(w.db.steps[id].status)
    ensures Checkpointed(id, PlainStep(env, w, id, work))
  {
  }

  lemma DeliverGot(env: Env, w: World, id: StepId, key: Key, fid: nat)
    requires id !in w.db.steps
    ensures Checkpointed(id, Deliver(env, w, id, key, fid))
  {
  }

  lemma BoundGot(env: Env, w: World, id: StepId, key: Key)
    ensures Checkpointed(id, BoundStep(env, w, id, key))
  {
    if id !in w.db.steps {
      var (w1, allowed) := Allocate(env, w, id);
      assert w1.db.steps == w.db.steps;
      if allowed && key !in w1.adapter {
        DeliverGot(env, w1, id, key, w.db.next);
      }
    }
  }

  lemma GotIsCheckpointed(p: Program, env: Env, w: World, id: StepId)
    requires WellFormed(p, w)
    ensures Checkpointed(id, ContextCall(p, env, w, id))
  {
    if id in w.db.steps { assert RowOk(p, w, id); }
    match p.kind(id)
    case Plain => PlainGot(env, w, id, env.work(id));
    case Approval =>
      if id in w.db.waits && w.db.waits[id].Signaled? { PlainGot(env, w, id, Some(Json(w.db.waits[id].payload))); }
    case Bound => BoundGot(env, w, id, p.key(id));
  }

  ghost predicate KeepsSuccess(s: map<StepId, Checkpoint>, s': map<StepId, Checkpoint>) {
    forall id | id in s && s[id].status.StepSuccess? :: id in s' && s'[id] == s[id]
  }

  /** A context whose calls keep `ok`, keep SUCCESS checkpoints and answer with SUCCESS checkpoints. */
  ghost predicate SoundContext(ok: World -> bool, call: Context) {
    forall w: World, id: StepId :: ok(w) ==>
      ok(call(w, id).0) && KeepsSuccess(w.db.steps, call(w, id).0.db.steps) && Checkpointed(id, call(w, id))
  }

  lemma ContextIsSound(p: Program, env: Env)
    ensures SoundContext(w => WellFormed(p, w), ContextOf(p, env))
  {
    forall w: World, id: StepId | WellFormed(p, w)
      ensures WellFormed(p, ContextOf(p, env)(w, id).0)
      ensures KeepsSuccess(w.db.steps, ContextOf(p, env)(w, id).0.db.steps) && Checkpointed(id, ContextOf(p, env)(w, id))
    {
      Reflexive(w);
      ContextCallGood(p, env, w, w, id);
      GotIsCheckpointed(p, env, w, id);
    }
  }

  /** A SUCCESS checkpoint survives the rest of a replay. */
  lemma ReplayKeepsSuccess(body: seq<Value> -> Action, ok: World -> bool, call: Context, w: World, history: seq<Value>, n: nat, id: StepId)
    requires SoundContext(ok, call) && ok(w) && id in w.db.steps && w.db.steps[id].status.StepSuccess?
    ensures var s := Replay(body, call, w, history, n).0.db.steps; id in s && s[id] == w.db.steps[id]
  {
    var row := w.db.steps[id];
    var inv := (v: World) => ok(v) && id in v.db.steps && v.db.steps[id] == row;
    ReplayKeeps(body, call, inv, w, history, n);
  }

  /** What a replay returns is the body evaluated on the checkpoints it leaves. */
  lemma {:induction false} ReplayEvaluates(p: Program, ok: World -> bool, call: Context, w: World, history: seq<Value>, n: nat)
    requires SoundContext(ok, call) && ok(w) && Replay(p.body, call, w, history, n).1.Got?
    ensures var (end, r) := Replay(p.body, call, w, history, n); Evaluate(p, end.db.steps, history, n) == Some(r.value)
    decreases n
  {
    if p.body(history).Do? {
      var (w1, r) := call(w, p.body(history).id);
      ReplayEvaluates(p, ok, call, w1, history + [r.value], n - 1);
      ReplayKeepsSuccess(p.body, ok, call, w1, history + [r.value], n - 1, p.body(history).id);
    }
  }

  lemma Reflexive(w: World)
    ensures Later(w, w)
  {
  }

  /** The stored output of a SUCCESS workflow is its body evaluated on the stored checkpoints. */
  ghost predicate OutputExplained(p: Program, w: World) {
    w.db.status.WfSuccess? ==> exists n: nat :: Evaluate(p, w.db.steps, [], n).Some? && Evaluate(p, w.db.steps, [], n) == w.db.output
  }

  lemma TransactionExplained(p: Program, env: Env, w: World)
    requires WellFormed(p, w) && !w.db.status.WfSuccess?
    ensures OutputExplained(p, Transaction(p, env, w))
  {
    var entered := w.(db := w.db.(status := WfPending));
    StatusGood(p, w, w, entered.db);
    var (w1, r) := Replay(p.body, ContextOf(p, env), entered, [], env.calls);
    if r.Got? {
      ContextIsSound(p, env);
      ReplayEvaluates(p, v => WellFormed(p, v), ContextOf(p, env), entered, [], env.calls);
    } else {
      NeverFinishes(p, env, entered, [], env.calls);
    }
  }

  lemma ResumeExplained(p: Program, env: Env, w: World)
    requires WellFormed(p, w) && OutputExplained(p, w)
    ensures OutputExplained(p, Resume(p, env, w))
  {
    var begun := Checked(Fall(w, env.atStart));
    if !begun.rec.control.frozen && !Terminal(w.db.status) {
      RestLater(p, w, begun);
      TransactionExplained(p, env, begun);
      assert Resume(p, env, w).db == w.db || Resume(p, env, w).db == Transaction(p, env, begun).db;
    }
  }

  /** Only the end of a resume writes SUCCESS or ERROR. */
  lemma NeverFinishes(p: Program, env: Env, w: World, history: seq<Value>, n: nat)
    requires !Terminal(w.db.status)
    ensures !Terminal(Replay(p.body, ContextOf(p, env), w, history, n).0.db.status)
  {
    var inv := (v: World) => !Terminal(v.db.status);
    forall v: World, id: StepId | inv(v) ensures inv(ContextOf(p, env)(v, id).0) {
      ContextCallTouchesOnly(p, env, v, id);
    }
    ReplayKeeps(p.body, ContextOf(p, env), inv, w, history, n);
  }

  /** In every reachable state a SUCCESS workflow's output is the body evaluated on the checkpointed
      outputs. */
  lemma {:induction false} OutputIsTheBodyOnCheckpoints(p: Program, w: World, ops: seq<Op>)
    requires Started(w)
    ensures OutputExplained(p, Run(p, w, ops))
    decreases |ops|
  {
    if ops != [] {
      var u := Run(p, w, ops[..|ops| - 1]);
      OutputIsTheBodyOnCheckpoints(p, w, ops[..|ops| - 1]);
      RunWellFormed(p, w, ops[..|ops| - 1]);
      if ops[|ops| - 1].DoResume? {
        ResumeExplained(p, ops[|ops| - 1].env, u);
      }
    }
  }

  lemma TerminalStep(p: Program, w: World, op: Op)
    requires Terminal(w.db.status)
    ensures Apply(p, w, op).db == w.db.(waits := Apply(p, w, op).db.waits)
  {
  }

  /** Nothing changes a finished workflow's status, output, checkpoints or function ids. */
  lemma {:induction false} TerminalIsFinal(p: Program, w: World, ops: seq<Op>, more: seq<Op>)
    requires Terminal(Run(p, w, ops).db.status)
    ensures Run(p, w, ops + more).db == Run(p, w, ops).db.(waits := Run(p, w, ops + more).db.waits)
    decreases |more|
  {
    if more == [] {
      assert ops + more == ops;
    } else {
      var init := more[..|more| - 1];
      TerminalIsFinal(p, w, ops, init);
      assert (ops + more)[..|ops + more| - 1] == ops + init;
      TerminalStep(p, Run(p, w, ops + init), more[|more| - 1]);
    }
  }

  // ----- approvals -----

  ghost predicate KeepsSignals(w: World, w': World) {
    forall id | id in w.db.waits && w.db.waits[id].Signaled? :: id in w'.db.waits && w'.db.waits[id] == w.db.waits[id]
  }

  lemma CallKeepsSignals(p: Program, env: Env, w: World, id: StepId)
    ensures KeepsSignals(w, ContextCall(p, env, w, id).0)
  {
    match p.kind(id)
    case Plain => PlainQuiet(env, w, id, env.work(id));
    case Approval =>
      if id in w.db.waits && w.db.waits[id].Signaled? { PlainQuiet(env, w, id, Some(Json(w.db.waits[id].payload))); }
    case Bound => BoundQuiet(env, w, id, p.key(id));
  }

  lemma ResumeKeepsSignals(p: Program, env: Env, w: World)
    ensures KeepsSignals(w, Resume(p, env, w))
  {
    var begun := Checked(Fall(w, env.atStart));
    var inv := (v: World) => KeepsSignals(w, v);
    forall v: World, id: StepId | inv(v) ensures inv(ContextOf(p, env)(v, id).0) {
      CallKeepsSignals(p, env, v, id);
    }
    ReplayKeeps(p.body, ContextOf(p, env), inv, begun.(db := begun.db.(status := WfPending)), [], env.calls);
  }

  /** A given approval survives every later resume, interruption and repeated signal, payload included. */
  lemma {:induction false} SignalsSurvive(p: Program, w: World, ops: seq<Op>, more: seq<Op>)
    ensures KeepsSignals(Run(p, w, ops), Run(p, w, ops + more))
    decreases |more|
  {
    if more == [] {
      assert ops + more == ops;
    } else {
      var init, last := more[..|more| - 1], more[|more| - 1];
      SignalsSurvive(p, w, ops, init);
      assert (ops + more)[..|ops + more| - 1] == ops + init;
      if last.DoResume? { ResumeKeepsSignals(p, last.env, Run(p, w, ops + init)); }
    }
  }

  /** A checkpointed approval step was signaled, and its output is exactly the payload it was signaled with. */
  predicate PayloadOk(p: Program, db: Tables, id: StepId) {
    id in db.steps && p.kind(id).Approval? ==>
      && id in db.waits && db.waits[id].Signaled?
      && db.steps[id].status.StepSuccess? && db.steps[id].output == Some(Json(db.waits[id].payload))
  }

  ghost predicate PayloadsOk(p: Program, w: World) {
    forall id :: PayloadOk(p, w.db, id)
  }

  /** The first call after the signal checkpoints the payload and hands it to the body, or is interrupted. */
  lemma SignaledStep(env: Env, w: World, id: StepId, payload: string)
    requires id !in w.db.steps && id in w.db.waits && w.db.waits[id] == Signaled(payload)
    ensures var (w', r) := ApprovalStep(env, w, id);
      && (r.Got? || r.Interrupted?) && (r.Got? ==> id in w'.db.steps && r.value == Json(payload))
      && (id in w'.db.steps ==> w'.db.steps[id].status.StepSuccess? && w'.db.steps[id].output == Some(Json(payload)))
  {
    var w2 := Log(Allocate(env, w, id).0, Worked(id));
    assert w2.db.steps == w.db.steps;
  }

  lemma WaitingStep(env: Env, w: World, id: StepId)
    requires id !in w.db.steps && !(id in w.db.waits && w.db.waits[id].Signaled?)
    ensures var w' := ApprovalStep(env, w, id).0;
      w'.db.steps == w.db.steps && (w'.db.waits == w.db.waits || w'.db.waits == w.db.waits[id := Waiting])
  {
  }

  lemma CallKeepsPayloads(p: Program, env: Env, w: World, call: StepId)
    requires PayloadsOk(p, w)
    ensures PayloadsOk(p, ContextCall(p, env, w, call).0)
  {
    var w' := ContextCall(p, env, w, call).0;
    assert PayloadOk(p, w.db, call);
    match p.kind(call) {
      case Plain => PlainQuiet(env, w, call, env.work(call));
      case Bound => BoundQuiet(env, w, call, p.key(call));
      case Approval =>
        if call !in w.db.steps {
          if call in w.db.waits && w.db.waits[call].Signaled? {
            PlainQuiet(env, w, call, Some(Json(w.db.waits[call].payload)));
            SignaledStep(env, w, call, w.db.waits[call].payload);
          } else {
            WaitingStep(env, w, call);
          }
        }
    }
    forall id ensures PayloadOk(p, w'.db, id) { assert PayloadOk(p, w.db, id); }
  }

  lemma ResumeKeepsPayloads(p: Program, env: Env, w: World)
    requires PayloadsOk(p, w)
    ensures PayloadsOk(p, Resume(p, env, w))
  {
    var begun := Checked(Fall(w, env.atStart));
    var entered := begun.(db := begun.db.(status := WfPending));
    assert forall id :: PayloadOk(p, w.db, id) ==> PayloadOk(p, entered.db, id);
    var inv := (v: World) => PayloadsOk(p, v);
    forall v: World, id: StepId | inv(v) ensures inv(ContextOf(p, env)(v, id).0) {
      CallKeepsPayloads(p, env, v, id);
    }
    ReplayKeeps(p.body, ContextOf(p, env), inv, entered, [], env.calls);
    var w1 := Replay(p.body, ContextOf(p, env), entered, [], env.calls).0;
    ResumeTables(p, env, w);
    forall id ensures PayloadOk(p, Resume(p, env, w).db, id) { assert PayloadOk(p, w.db, id) && PayloadOk(p, w1.db, id); }
  }

  /** The steps and waits a resume leaves are those it began with or those of its replay. */
  lemma ResumeTables(p: Program, env: Env, w: World)
    ensures var begun := Checked(Fall(w, env.atStart));
      var w1 := Replay(p.body, ContextOf(p, env), begun.(db := begun.db.(status := WfPending)), [], env.calls).0;
      var db := Resume(p, env, w).db;
      (db.steps == w.db.steps && db.waits == w.db.waits) || (db.steps == w1.db.steps && db.waits == w1.db.waits)
  {
    var begun := Checked(Fall(w, env.atStart));
    var (w1, r) := Replay(p.body, ContextOf(p, env), begun.(db := begun.db.(status := WfPending)), [], env.calls);
    FinishTables(env, begun, w1, r);
  }

  lemma FinishTables(env: Env, w: World, w1: World, r: StepResult)
    ensures var db := Finish(env, w, w1, r).db;
      (db.steps == w.db.steps && db.waits == w.db.waits) || (db.steps == w1.db.steps && db.waits == w1.db.waits)
  {
  }

  /** In every run the checkpoint of an approval step is a SUCCESS with exactly the payload the step was signaled
      with, which the body is then given. */
  lemma {:induction false} ApprovalGivesItsPayload(p: Program, w: World, ops: seq<Op>)
    requires Started(w)
    ensures PayloadsOk(p, Run(p, w, ops))
    decreases |ops|
  {
    if ops != [] {
      var u, op := Run(p, w, ops[..|ops| - 1]), ops[|ops| - 1];
      ApprovalGivesItsPayload(p, w, ops[..|ops| - 1]);
      if op.DoResume? {
        ResumeKeepsPayloads(p, op.env, u);
      } else {
        forall id ensures PayloadOk(p, Run(p, w, ops).db, id) { assert PayloadOk(p, u.db, id); }
      }
    }
  }

  /** A signal takes effect exactly on a waiting step while the writers are open, with its own payload, and touches
      nothing else but a waiting workflow's status. */
  lemma SignalExactlyWhen(w: World, id: StepId, payload: string)
    ensures var w' := SignalApproval(w, id, payload);
      && (w' != w ==> !w.rec.control.frozen && id in w.db.waits && w.db.waits[id].Waiting?)
      && (!w.rec.control.frozen && id in w.db.waits && w.db.waits[id].Waiting? ==>
            && w'.db.waits == w.db.waits[id := Signaled(payload)]
            && w'.db.status == (if w.db.status.WfWaiting? then WfPending else w.db.status)
            && w'.db.(waits := w.db.waits, status := w.db.status) == w.db && w'.(db := w.db) == w)
  {
  }

  // ----- frozen writers -----

  /** The writers were open when the history had length `n`. */
  predicate OpenAt(history: seq<R.Op>, n: nat) {
    n <= |history| && !R.Run(R.INITIAL, history[..n]).frozen
  }

  /** The control is what its history makes it, and every check passed and every UPDATE was made while open. */
  ghost predicate RecOk(r: Rec) {
    && r.control == R.Run(R.INITIAL, r.history) && OpenAt(r.history, r.checked)
    && forall i | 0 <= i < |r.writes| :: OpenAt(r.history, r.writes[i])
  }

  /** Since `w0`: the records only grew, next_function_id moved with them, and the last check is not older. */
  ghost predicate RecLater(w0: World, w: World) {
    && RecOk(w.rec) && |w0.rec.history| <= w.rec.checked && |w0.rec.writes| <= |w.rec.writes|
    && w.db.next - w0.db.next == |w.rec.writes| - |w0.rec.writes|
  }

  lemma FallOk(r: Rec, ops: seq<R.Op>)
    requires RecOk(r)
    ensures RecOk(r.(control := R.Run(r.control, ops), history := r.history + ops))
  {
    R.RunAppends(R.INITIAL, r.history, ops);
    forall n: nat | n <= |r.history| ensures (r.history + ops)[..n] == r.history[..n] { }
  }

  lemma PassRec(env: Env, w0: World, w: World, id: StepId, phase: Phase)
    requires RecLater(w0, w)
    ensures RecLater(w0, Pass(env, w, id, phase).0)
  {
    FallOk(w.rec, env.recovery(id, phase));
  }

  lemma CheckedOk(r: Rec)
    requires RecOk(r) && !r.control.frozen
    ensures RecOk(r.(checked := |r.history|)) && RecOk(r.(writes := r.writes + [|r.history|]))
  {
    assert r.history[..|r.history|] == r.history;
  }

  lemma GuardRec(env: Env, w0: World, w: World, id: StepId, phase: Phase)
    requires RecLater(w0, w)
    ensures RecLater(w0, Guard(env, w, id, phase).0)
    ensures Guard(env, w, id, phase).1 ==> !Guard(env, w, id, phase).0.rec.control.frozen
  {
    FallOk(w.rec, env.recovery(id, phase));
    var w1 := Fall(w, env.recovery(id, phase));
    if !w1.rec.control.frozen { CheckedOk(w1.rec); }
  }

  lemma SaveRec(env: Env, w0: World, w: World, id: StepId, fid: nat, status: StepStatus, output: Option<Value>, key: Option<Key>, r: StepResult)
    requires RecLater(w0, w)
    ensures RecLater(w0, Save(env, w, id, fid, status, output, key, r).0)
  {
    GuardRec(env, w0, w, id, Checkpointing);
    PassRec(env, w0, Guard(env, w, id, Checkpointing).0, id, Inserting);
  }

  lemma AllocateRec(env: Env, w0: World, w: World, id: StepId)
    requires RecLater(w0, w)
    ensures RecLater(w0, Allocate(env, w, id).0)
  {
    var (w1, allowed) := Guard(env, w, id, Allocating);
    GuardRec(env, w0, w, id, Allocating);
    if allowed {
      CheckedOk(w1.rec);
      GuardRec(env, w0, Advance(w1), id, Starting);
    }
  }

  lemma PlainRec(env: Env, w0: World, w: World, id: StepId, work: Option<Value>)
    requires RecLater(w0, w)
    ensures RecLater(w0, PlainStep(env, w, id, work).0)
  {
    AllocateRec(env, w0, w, id);
    var w2 := Log(Allocate(env, w, id).0, Worked(id));
    SaveRec(env, w0, w2, id, w.db.next, StepError, None, None, Errored);
    if work.Some? { SaveRec(env, w0, w2, id, w.db.next, StepSuccess, work, None, Got(work.value)); }
  }

  lemma SettleRec(env: Env, w0: World, w: World, id: StepId, key: Key, fid: nat)
    requires RecLater(w0, w) && key in w.adapter
    ensures RecLater(w0, Settle(env, w, id, key, fid).0)
  {
    var post := Observed(env, w, id, key);
    if post.Some? {
      var v := EffectRecord(post.value.Verified?, false, key, w.adapter[key], post.value, PrepText(env.work(id)));
      SaveRec(env, w0, w, id, fid, StatusFor(post.value), Some(v), Some(key), Recoverable);
      SaveRec(env, w0, w, id, fid, StepError, None, Some(key), Errored);
      SaveRec(env, w0, w, id, fid, StepSuccess, Some(v), Some(key), Got(v));
    }
  }

  /** Both ways of settling a step by observation alone. */
  lemma ObservedRec(env: Env, w0: World, w: World, id: StepId, key: Key, fid: nat)
    requires RecLater(w0, w)
    ensures RecLater(w0, ResumeAmbiguous(env, w, id, key, fid).0)
    ensures key in w.adapter ==> RecLater(w0, AfterLostCheckpoint(env, w, id, key, fid).0)
  {
    var post := Observed(env, w, id, key);
    if key in w.adapter && post.Some? {
      var v := EffectRecord(post.value.Verified?, true, key, w.adapter[key], post.value, None);
      SaveRec(env, w0, w, id, fid, StepSuccess, Some(v), Some(key), Got(v));
      SaveRec(env, w0, w, id, fid, StatusFor(post.value), Some(v), Some(key), Recoverable);
      SaveRec(env, w0, w, id, fid, StepError, None, Some(key), Errored);
    }
  }

  lemma DeliverRec(env: Env, w0: World, w: World, id: StepId, key: Key, fid: nat)
    requires RecLater(w0, w)
    ensures RecLater(w0, Deliver(env, w, id, key, fid).0)
  {
    var w1 := Log(w, Prepared(id, key));
    var u := if env.meanwhile(id) then Commit(w1, key) else w1;
    assert u.rec == w.rec && u.db == w.db;
    PassRec(env, w0, u, id, AfterPrep);
    var w2 := Pass(env, u, id, AfterPrep).0;
    SaveRec(env, w0, w2, id, fid, StepError, None, Some(key), Errored);
    var w3 := Log(Commit(w2, key), Delivered(id, key));
    assert w3.rec == w2.rec && w3.db == w2.db;
    PassRec(env, w0, w3, id, AfterCommit);
    SettleRec(env, w0, Pass(env, w3, id, AfterCommit).0, id, key, fid);
  }

  lemma BoundRec(env: Env, w0: World, w: World, id: StepId, key: Key)
    requires RecLater(w0, w)
    ensures RecLater(w0, BoundStep(env, w, id, key).0)
  {
    if id in w.db.steps {
      var k := if w.db.steps[id].key.Some? then w.db.steps[id].key.value else key;
      ObservedRec(env, w0, w, id, k, w.db.steps[id].functionId);
    } else {
      var (w1, _) := Allocate(env, w, id);
      AllocateRec(env, w0, w, id);
      ObservedRec(env, w0, w1, id, key, w.db.next);
      DeliverRec(env, w0, w1, id, key, w.db.next);
    }
  }

  lemma ApprovalRec(env: Env, w0: World, w: World, id: StepId)
    requires RecLater(w0, w)
    ensures RecLater(w0, ApprovalStep(env, w, id).0)
  {
    if id in w.db.waits && w.db.waits[id].Signaled? {
      PlainRec(env, w0, w, id, Some(Json(w.db.waits[id].payload)));
    }
    GuardRec(env, w0, w, id, Starting);
    GuardRec(env, w0, w, id, Checkpointing);
    GuardRec(env, w0, Guard(env, w, id, Starting).0, id, Checkpointing);
  }

  lemma ReplayRec(p: Program, env: Env, w0: World, w: World, history: seq<Value>, n: nat)
    requires RecLater(w0, w)
    ensures RecLater(w0, Replay(p.body, ContextOf(p, env), w, history, n).0)
  {
    var inv := (v: World) => RecLater(w0, v);
    forall v: World, id: StepId | inv(v) ensures inv(ContextOf(p, env)(v, id).0) {
      match p.kind(id)
      case Plain => PlainRec(env, w0, v, id, env.work(id));
      case Approval => ApprovalRec(env, w0, v, id);
      case Bound => BoundRec(env, w0, v, id, p.key(id));
    }
    ReplayKeeps(p.body, ContextOf(p, env), inv, w, history, n);
  }

  /** What a transaction leaves of the recovery record: it is sound, next_function_id moved no further than
      the UPDATEs that were made, and the last check is one of its own. */
  ghost predicate Kept(w: World, w': World) {
    && RecOk(w'.rec) && |w.rec.history| <= w'.rec.checked
    && |w.rec.writes| <= |w'.rec.writes| && w'.db.next - w.db.next <= |w'.rec.writes| - |w.rec.writes|
  }

  lemma FinishRec(env: Env, w: World, w1: World, r: StepResult)
    requires RecLater(w, w1)
    ensures Kept(w, Finish(env, w, w1, r))
  {
    FallOk(w1.rec, env.atEnd);
    var w2 := Fall(w1, env.atEnd);
    if !w2.rec.control.frozen { CheckedOk(w2.rec); }
  }

  lemma TransactionRec(p: Program, env: Env, w: World)
    requires RecOk(w.rec) && w.rec.checked == |w.rec.history|
    ensures Kept(w, Transaction(p, env, w))
  {
    var entered := w.(db := w.db.(status := WfPending));
    ReplayRec(p, env, w, entered, [], env.calls);
    var (w1, r) := Replay(p.body, ContextOf(p, env), entered, [], env.calls);
    FinishRec(env, w, w1, r);
  }

  /** What a resume leaves of it. */
  lemma ResumeRec(p: Program, env: Env, w: World)
    requires RecOk(w.rec)
    ensures var w' := Resume(p, env, w);
      && RecOk(w'.rec) && |w.rec.writes| <= |w'.rec.writes| && w'.db.next - w.db.next <= |w'.rec.writes| - |w.rec.writes|
      && (w'.db != w.db ==> |w.rec.history| <= w'.rec.checked)
  {
    var w0 := Fall(w, env.atStart);
    FallOk(w.rec, env.atStart);
    if !w0.rec.control.frozen && !Terminal(w.db.status) {
      CheckedOk(w0.rec);
      TransactionRec(p, env, Checked(w0));
      var done := Transaction(p, env, Checked(w0));
      FallOk(done.rec, env.atCommit);
    }
  }

  lemma {:induction false} RunRec(p: Program, w: World, ops: seq<Op>)
    requires Started(w)
    ensures RecOk(Run(p, w, ops).rec) && Run(p, w, ops).db.next <= |Run(p, w, ops).rec.writes|
    decreases |ops|
  {
    if ops == [] {
      assert w.rec.history[..0] == [];
    } else {
      var u, op := Run(p, w, ops[..|ops| - 1]), ops[|ops| - 1];
      RunRec(p, w, ops[..|ops| - 1]);
      match op
      case DoResume(env) => ResumeRec(p, env, u);
      case Restore(step) => FallOk(u.rec, [step]);
      case _ =>
    }
  }

  /** Over every run, with restores falling between any two statements: every UPDATE of next_function_id was
      made at a moment when the history of restores says the writers were open (none had begun, or all
      surfaces were marked since the latest and it was completed), and next_function_id never exceeds
      their number. */
  lemma AllocationsOnlyWhenOpen(p: Program, w: World, ops: seq<Op>, i: nat)
    requires Started(w) && i < |Run(p, w, ops).rec.writes|
    ensures var rec := Run(p, w, ops).rec;
      rec.writes[i] <= |rec.history| && R.OpenByHistory(rec.history[..rec.writes[i]])
    ensures Run(p, w, ops).db.next <= |Run(p, w, ops).rec.writes|
  {
    RunRec(p, w, ops);
    var rec := Run(p, w, ops).rec;
    assert OpenAt(rec.history, rec.writes[i]);
    R.OpenExactlyByHistory(rec.history[..rec.writes[i]]);
  }

  lemma FrozenSince(r: Rec)
    requires RecOk(r)
    ensures r.control.frozen <==> !R.OpenByHistory(r.history[r.checked..])
  {
    assert r.history[..r.checked] + r.history[r.checked..] == r.history;
    R.OpenSince(r.history[..r.checked], r.history[r.checked..]);
  }

  // ----- what falls between the last check and the COMMIT -----

  /** Endings that keep what the transaction wrote without checking the freeze again. */
  predicate Unchecked(r: StepResult) {
    r.Stopped? || r.Recoverable? || r.AwaitsApproval?
  }

  /** What restores do after the last check of a context call that ends so: behind prep and the adapter's commit
      if it stops there, between a checkpoint's check and its INSERT if it stays recoverable. */
  function CallWindow(env: Env, id: StepId, r: StepResult): seq<R.Op> {
    match r
    case Stopped => env.recovery(id, AfterPrep) + if env.work(id).Some? then env.recovery(id, AfterCommit) else []
    case Recoverable => env.recovery(id, Inserting)
    case _ => []
  }

  /** The context call with which a replay stops, if one does. */
  function LastCall(body: seq<Value> -> Action, call: Context, w: World, history: seq<Value>, n: nat): Option<StepId>
    decreases n
  {
    if !body(history).Do? || n == 0 then None
    else
      var (w1, r) := call(w, body(history).id);
      if r.Got? then LastCall(body, call, w1, history + [r.value], n - 1) else Some(body(history).id)
  }

  /** The restores that fall between the last check of a resume and its COMMIT, told from its inputs. */
  function Window(p: Program, env: Env, w: World): seq<R.Op> {
    var begun := Checked(Fall(w, env.atStart));
    var entered := begun.(db := begun.db.(status := WfPending));
    var r := Replay(p.body, ContextOf(p, env), entered, [], env.calls).1;
    var last := LastCall(p.body, ContextOf(p, env), entered, [], env.calls);
    (if last.Some? then CallWindow(env, last.value, r) else []) + env.atCommit
  }

  /** Since the last check exactly `ops` fell. */
  predicate Since(w: World, ops: seq<R.Op>) {
    w.rec.checked <= |w.rec.history| && w.rec.history[w.rec.checked..] == ops
  }

  lemma FallSince(w: World, before: seq<R.Op>, ops: seq<R.Op>)
    requires Since(w, before)
    ensures Since(Fall(w, ops), before + ops)
  {
    assert (w.rec.history + ops)[w.rec.checked..] == w.rec.history[w.rec.checked..] + ops;
  }

  lemma CheckedSince(w: World)
    ensures Since(Checked(w), [])
  {
  }

  lemma SaveSince(env: Env, w: World, id: StepId, fid: nat, status: StepStatus, output: Option<Value>, key: Option<Key>, r: StepResult)
    ensures !Save(env, w, id, fid, status, output, key, r).1.Interrupted? ==>
      Since(Save(env, w, id, fid, status, output, key, r).0, env.recovery(id, Inserting))
  {
    var (w1, allowed) := Guard(env, w, id, Checkpointing);
    if allowed {
      CheckedSince(Fall(w, env.recovery(id, Checkpointing)));
      FallSince(w1, [], env.recovery(id, Inserting));
      assert [] + env.recovery(id, Inserting) == env.recovery(id, Inserting);
    }
  }

  lemma AllocateSince(env: Env, w: World, id: StepId)
    ensures Allocate(env, w, id).1 ==> Since(Allocate(env, w, id).0, [])
  {
  }

  /** A call that ends unchecked has had exactly its window since its last check. */
  ghost predicate EndsIn(env: Env, id: StepId, out: (World, StepResult)) {
    Unchecked(out.1) ==> Since(out.0, CallWindow(env, id, out.1))
  }

  lemma PlainEndsIn(env: Env, w: World, id: StepId, work: Option<Value>)
    ensures !Unchecked(PlainStep(env, w, id, work).1)
  {
  }

  lemma AmbiguousEndsIn(env: Env, w: World, id: StepId, key: Key, fid: nat)
    ensures EndsIn(env, id, ResumeAmbiguous(env, w, id, key, fid))
    ensures key in w.adapter ==> EndsIn(env, id, AfterLostCheckpoint(env, w, id, key, fid))
  {
    var post := Observed(env, w, id, key);
    if key in w.adapter && post.Some? {
      var v := EffectRecord(false, true, key, w.adapter[key], post.value, None);
      SaveSince(env, w, id, fid, StatusFor(post.value), Some(v), Some(key), Recoverable);
    }
  }

  lemma SettleEndsIn(env: Env, w: World, id: StepId, key: Key, fid: nat)
    requires key in w.adapter && Since(w, CallWindow(env, id, Stopped))
    ensures EndsIn(env, id, Settle(env, w, id, key, fid))
  {
    var post := Observed(env, w, id, key);
    if post.Some? {
      var v := EffectRecord(post.value.Verified?, false, key, w.adapter[key], post.value, PrepText(env.work(id)));
      SaveSince(env, w, id, fid, StatusFor(post.value), Some(v), Some(key), Recoverable);
    }
  }

  lemma PrepSince(env: Env, w: World, id: StepId, key: Key)
    requires Since(w, [])
    ensures var w1 := Log(w, Prepared(id, key));
      Since(Pass(env, if env.meanwhile(id) then Commit(w1, key) else w1, id, AfterPrep).0, env.recovery(id, AfterPrep))
  {
    var w1 := Log(w, Prepared(id, key));
    FallSince(if env.meanwhile(id) then Commit(w1, key) else w1, [], env.recovery(id, AfterPrep));
    assert [] + env.recovery(id, AfterPrep) == env.recovery(id, AfterPrep);
  }

  lemma DeliverEndsIn(env: Env, w: World, id: StepId, key: Key, fid: nat)
    requires Since(w, [])
    ensures EndsIn(env, id, Deliver(env, w, id, key, fid))
  {
    PrepSince(env, w, id, key);
    var w1 := Log(w, Prepared(id, key));
    var w2 := Pass(env, if env.meanwhile(id) then Commit(w1, key) else w1, id, AfterPrep).0;
    if env.work(id).Some? {
      var d := Log(Commit(w2, key), Delivered(id, key));
      FallSince(d, env.recovery(id, AfterPrep), env.recovery(id, AfterCommit));
      SettleEndsIn(env, Pass(env, d, id, AfterCommit).0, id, key, fid);
    } else {
      assert env.recovery(id, AfterPrep) + [] == env.recovery(id, AfterPrep);
    }
  }

  lemma BoundEndsIn(env: Env, w: World, id: StepId, key: Key)
    ensures EndsIn(env, id, BoundStep(env, w, id, key))
  {
    if id in w.db.steps {
      var row := w.db.steps[id];
      AmbiguousEndsIn(env, w, id, if row.key.Some? then row.key.value else key, row.functionId);
    } else {
      var (w1, allowed) := Allocate(env, w, id);
      AllocateSince(env, w, id);
      if allowed {
        AmbiguousEndsIn(env, w1, id, key, w.db.next);
        DeliverEndsIn(env, w1, id, key, w.db.next);
      }
    }
  }

  lemma CallEndsIn(p: Program, env: Env, w: World, id: StepId)
    ensures EndsIn(env, id, ContextCall(p, env, w, id))
  {
    match p.kind(id)
    case Plain => PlainEndsIn(env, w, id, env.work(id));
    case Approval =>
      if id in w.db.waits && w.db.waits[id].Signaled? { PlainEndsIn(env, w, id, Some(Json(w.db.waits[id].payload))); }
    case Bound => BoundEndsIn(env, w, id, p.key(id));
  }

  lemma {:induction false} ReplayEndsIn(body: seq<Value> -> Action, call: Context, env: Env, w: World, history: seq<Value>, n: nat)
    requires forall v: World, id: StepId :: EndsIn(env, id, call(v, id))
    ensures var (end, r) := Replay(body, call, w, history, n);
      var last := LastCall(body, call, w, history, n);
      && (Unchecked(r) ==> last.Some? && Since(end, CallWindow(env, last.value, r)))
      && (r.Got? ==> last.None?)
    decreases n
  {
    if body(history).Do? && n > 0 {
      var (w1, r) := call(w, body(history).id);
      if r.Got? {
        ReplayEndsIn(body, call, env, w1, history + [r.value], n - 1);
      } else {
        assert EndsIn(env, body(history).id, call(w, body(history).id));
      }
    }
  }

  /** A resume that was not rolled back has had exactly its window since its last check. */
  lemma ResumeWindow(p: Program, env: Env, w: World)
    requires Resume(p, env, w).db != w.db
    ensures Since(Resume(p, env, w), Window(p, env, w))
  {
    var begun := Checked(Fall(w, env.atStart));
    var entered := begun.(db := begun.db.(status := WfPending));
    forall v: World, id: StepId ensures EndsIn(env, id, ContextOf(p, env)(v, id)) { CallEndsIn(p, env, v, id); }
    ReplayEndsIn(p.body, ContextOf(p, env), env, entered, [], env.calls);
    var (w1, r) := Replay(p.body, ContextOf(p, env), entered, [], env.calls);
    var last := LastCall(p.body, ContextOf(p, env), entered, [], env.calls);
    var window := if last.Some? then CallWindow(env, last.value, r) else [];
    FinishSince(env, begun, w1, r, window);
    FallSince(Finish(env, begun, w1, r), window, env.atCommit);
  }

  lemma FinishSince(env: Env, w: World, w1: World, r: StepResult, window: seq<R.Op>)
    requires !r.Interrupted? && Finish(env, w, w1, r).db != w.db
    requires Unchecked(r) ==> Since(w1, window)
    requires r.Got? || r.Errored? ==> window == []
    ensures Since(Finish(env, w, w1, r), window)
  {
    CheckedSince(Fall(w1, env.atEnd));
  }

  /** A resume that publishes anything (a function id, a checkpoint, a status) does so under a freeze exactly
      when the restores in its window leave one uncompleted. The window depends on how the resume ends: with a
      finished workflow or a new wait it is what falls before the COMMIT; with a recoverable step also what
      falls between that step's check and its INSERT; with a step stopped behind its prep or its adapter
      commit also what falls behind those. */
  lemma PublishesUnderFreezeExactlyWhen(p: Program, w: World, ops: seq<Op>, env: Env)
    requires Started(w) && Resume(p, env, Run(p, w, ops)).db != Run(p, w, ops).db
    ensures var u := Run(p, w, ops);
      var u' := Resume(p, env, u);
      && (u'.rec.control.frozen <==> !R.OpenByHistory(Window(p, env, u)))
      && |u.rec.history| <= u'.rec.checked && Since(u', Window(p, env, u))
  {
    RunRec(p, w, ops);
    var u := Run(p, w, ops);
    ResumeRec(p, env, u);
    ResumeWindow(p, env, u);
    FrozenSince(Resume(p, env, u).rec);
  }

  /** No restore begins where a window can be. */
  ghost predicate NoneBegins(env: Env) {
    && R.Begin !in env.atCommit
    && forall id: StepId ::
         R.Begin !in env.recovery(id, AfterPrep) && R.Begin !in env.recovery(id, AfterCommit) && R.Begin !in env.recovery(id, Inserting)
  }

  /** Then nothing is published under a freeze, wherever else restores begin. */
  lemma QuietWindowsPublishOpen(p: Program, w: World, ops: seq<Op>, env: Env)
    requires Started(w) && Resume(p, env, Run(p, w, ops)).db != Run(p, w, ops).db && NoneBegins(env)
    ensures !Resume(p, env, Run(p, w, ops)).rec.control.frozen
  {
    PublishesUnderFreezeExactlyWhen(p, w, ops, env);
    assert R.Begin !in Window(p, env, Run(p, w, ops));
    assert R.LatestBegin(Window(p, env, Run(p, w, ops))) == 0;
  }

  /** The resume meets nothing but one beginRestore, right after the step's effect was committed, and an
      observation that throws. */
  predicate FreezesBehindTheCommit(env: Env, id: StepId) {
    && env.calls > 0 && !env.lostAtEnd && !env.meanwhile(id) && env.work(id).Some? && env.requested(id).None?
    && env.atStart == [] && env.atCommit == [] && env.recovery(id, AfterCommit) == [R.Begin]
    && env.recovery(id, Allocating) == [] && env.recovery(id, Starting) == [] && env.recovery(id, AfterPrep) == []
    && !env.dies(id, Allocating) && !env.dies(id, Starting) && !env.dies(id, AfterPrep) && !env.dies(id, AfterCommit)
  }

  lemma BoundStepStops(env: Env, w: World, id: StepId, key: Key)
    requires !w.rec.control.frozen && id !in w.db.steps && key !in w.adapter && FreezesBehindTheCommit(env, id)
    ensures var (w', r) := BoundStep(env, w, id, key);
      r.Stopped? && w'.db == w.db.(next := w.db.next + 1) && w'.rec.control.frozen
  {
    var (w1, _) := Allocate(env, w, id);
    assert w1.rec.control == w.rec.control;
    var w2 := Pass(env, Log(w1, Prepared(id, key)), id, AfterPrep).0;
    assert w2.rec.control == w.rec.control && w2.db == w1.db;
    var w3 := Pass(env, Log(Commit(w2, key), Delivered(id, key)), id, AfterCommit).0;
    FreezeFalls(w.rec.control);
  }

  lemma FreezeFalls(c: R.Control)
    ensures R.Run(c, [R.Begin]).frozen
  {
    assert [R.Begin][..0] == [];
  }

  /** Such resumes exist for every body that starts with an effect-bound step: with the writers open, the
      step not yet checkpointed and its key not yet in the adapter, the resume commits one more function id
      into a frozen database. */
  lemma StoppedResumePublishesUnderFreeze(p: Program, env: Env, w: World, id: StepId)
    requires !w.rec.control.frozen && !Terminal(w.db.status)
    requires p.body([]) == Do(id) && p.kind(id).Bound? && id !in w.db.steps && p.key(id) !in w.adapter
    requires FreezesBehindTheCommit(env, id)
    ensures Resume(p, env, w).rec.control.frozen && Resume(p, env, w).db.next == w.db.next + 1
  {
    var begun := Checked(Fall(w, env.atStart));
    var entered := begun.(db := begun.db.(status := WfPending));
    BoundStepStops(env, entered, id, p.key(id));
    assert ContextOf(p, env)(entered, id) == BoundStep(env, entered, id, p.key(id));
    assert Replay(p.body, ContextOf(p, env), entered, [], env.calls) == BoundStep(env, entered, id, p.key(id));
  }
}
