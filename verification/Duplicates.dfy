/**
 * One worker, crashes included, and any number of extra copies of messages in the queue: a job is recorded as
 * succeeded at most once and a completed key's result is never lost.
 */
module Duplicates {
  import opened Values
  import opened Tables
  import opened Catalog
  import opened Gateway
  import opened Worker
  import opened Protocol
  import opened QueueRuns
  import opened OpenSubmissions
  import opened DeliveryRuns

  /** The gateway submits in one step, and anything may publish copies of what it published. */
  predicate CopiesOnly(steps: seq<Step>)
  {
    forall i :: 0 <= i < |steps| ==> Copying(steps[i])
  }

  predicate Copying(s: Step)
  {
    !s.Publish? && !s.Submit? && !s.Conclude?
  }

  predicate NotesSuccess(e: Event, jobId: string)
  {
    e.kind == JobSucceeded && e.requestId == jobId
  }

  function SuccessEvents(events: seq<Event>, jobId: string): nat
  {
    if events == [] then 0
    else SuccessEvents(events[..|events| - 1], jobId) + (if NotesSuccess(events[|events| - 1], jobId) then 1 else 0)
  }

  // ---------------------------------------------------------------- the invariant

  /** A completed key has a succeeded job with the key's result, and one success event; an open key has none. */
  predicate KeyOk(t: Db, key: string)
    requires key in t.keys
  {
    var k := t.keys[key];
    && k.jobId in t.jobs && t.jobs[k.jobId].key == key
    && SuccessEvents(t.events, k.jobId) == (if k.completed then 1 else 0)
    && (k.completed ==> t.jobs[k.jobId].status == Succeeded && k.result.Some? && t.jobs[k.jobId].result == k.result)
  }

  /** Past the guard the key of the message at hand is open; on the duplicate path it is completed. */
  predicate AtHand(t: Db, msg: Message, phase: Phase)
  {
    && msg.body.key.Some? && msg.body.key.value in t.keys
    && var k := t.keys[msg.body.key.value];
       match phase
       case Guard => true
       case Mark => !k.completed
       case RunTool => !k.completed
       case Record(_) => !k.completed
       case Settle(ok) => ok == k.completed
       case SettleDuplicate(result) => k.completed && k.result == Some(result)
       case NoteDuplicate(result) => k.completed && k.result == Some(result)
       case _ => false
  }

  ghost predicate SuccessesKnown(t: Db)
  {
    forall i :: 0 <= i < |t.events| && t.events[i].kind == JobSucceeded ==> t.events[i].requestId in t.jobs
  }

  ghost predicate RowsLinked(c: Deployment, t: Db)
  {
    forall r :: 0 <= r < |t.rows| ==> Linked(c, t, t.rows[r])
  }

  ghost predicate CopyInv(c: Deployment, w: World)
  {
    && QueueInv(c, w) && |w.hands| <= 1
    && RowsLinked(c, w.t) && SuccessesKnown(w.t) && KeysOk(w.t)
    && (|w.hands| == 1 ==> HeadOk(w.t, w.hands[0]))
  }

  ghost predicate KeysOk(t: Db)
  {
    forall k :: k in t.keys ==> KeyOk(t, k)
  }

  predicate HeadOk(t: Db, h: Hand)
  {
    Busy(h) ==> AtHand(t, h.batch[h.pos], h.phase)
  }

  /** What is completed stays completed, with its result. */
  ghost predicate CompletedStay(t: Db, u: Db)
  {
    forall k :: k in t.keys && t.keys[k].completed ==> k in u.keys && u.keys[k] == t.keys[k]
  }

  // ---------------------------------------------------------------- a commit of the worker

  lemma SuccessEventsAppend(events: seq<Event>, e: Event, jobId: string)
    ensures SuccessEvents(events + [e], jobId)
            == SuccessEvents(events, jobId) + (if NotesSuccess(e, jobId) then 1 else 0)
  {
    assert (events + [e])[..|events|] == events;
  }

  lemma {:induction false} NoSuccessYet(events: seq<Event>, jobId: string)
    requires forall i :: 0 <= i < |events| ==> !NotesSuccess(events[i], jobId)
    ensures SuccessEvents(events, jobId) == 0
  {
    if events != [] {
      NoSuccessYet(events[..|events| - 1], jobId);
    }
  }

  /** The events a commit appends: at most one, and a success only when the handler returned. */
  lemma CommitEvents(c: Deployment, t: Db, msg: Message, phase: Phase, now: int, jobId: string)
    requires msg.body.jobId.Some?
    ensures var u := Commit(c, t, msg, phase, now).db;
            && SuccessEvents(u.events, jobId) == SuccessEvents(t.events, jobId)
                 + (if phase.Record? && phase.res.Returned? && msg.body.jobId.value == jobId then 1 else 0)
            && (forall i :: 0 <= i < |u.events| && u.events[i].kind == JobSucceeded ==>
                  (i < |t.events| && u.events[i] == t.events[i]) || u.events[i].requestId == msg.body.jobId.value)
  {
    var u := Commit(c, t, msg, phase, now).db;
    if |u.events| > |t.events| {
      assert u.events == t.events + [u.events[|t.events|]];
      SuccessEventsAppend(t.events, u.events[|t.events|], jobId);
    }
  }

  /** The key of the message at hand after a commit. */
  lemma CommitOnItsKey(c: Deployment, t: Db, msg: Message, phase: Phase, now: int)
    requires AtHand(t, msg, phase) && KeyOk(t, msg.body.key.value) && msg.body.key.value != ""
    requires msg.body.jobId == Some(t.keys[msg.body.key.value].jobId) && msg.body.tool in c.registry
    ensures var turn := Commit(c, t, msg, phase, now);
            && msg.body.key.value in turn.db.keys && KeyOk(turn.db, msg.body.key.value)
            && (t.keys[msg.body.key.value].completed ==> turn.db.keys[msg.body.key.value] == t.keys[msg.body.key.value])
            && (turn.next.Some? ==> AtHand(turn.db, msg, turn.next.value))
  {
    CommitEvents(c, t, msg, phase, now, msg.body.jobId.value);
  }

  lemma CommitOnOtherKeys(c: Deployment, t: Db, msg: Message, phase: Phase, now: int, key: string)
    requires msg.body.key.Some? && msg.body.key.value in t.keys && KeyOk(t, msg.body.key.value)
    requires msg.body.jobId == Some(t.keys[msg.body.key.value].jobId)
    requires key in t.keys && KeyOk(t, key) && key != msg.body.key.value
    ensures var u := Commit(c, t, msg, phase, now).db;
            key in u.keys && KeyOk(u, key) && u.keys[key] == t.keys[key]
  {
    JobsFrame(c, t, msg, phase, now);
    KeysFrame(c, t, msg, phase, now);
    CommitEvents(c, t, msg, phase, now, t.keys[key].jobId);
  }

  lemma LinksAfter(c: Deployment, t: Db, u: Db)
    requires RowsLinked(c, t) && SameLinks(t, u)
    ensures RowsLinked(c, u)
  {
    forall r | 0 <= r < |u.rows| ensures Linked(c, u, u.rows[r]) {
      assert Linked(c, t, t.rows[r]);
      var j := t.rows[r].body.jobId.value;
      assert Pristine(u.jobs[j]).key == Pristine(t.jobs[j]).key;
    }
  }

  lemma CommitOnKey(c: Deployment, t: Db, msg: Message, phase: Phase, now: int, key: string)
    requires AtHand(t, msg, phase) && msg.body.key.value != "" && msg.body.tool in c.registry
    requires msg.body.jobId == Some(t.keys[msg.body.key.value].jobId)
    requires KeyOk(t, msg.body.key.value) && key in t.keys && KeyOk(t, key)
    ensures var u := Commit(c, t, msg, phase, now).db;
            key in u.keys && KeyOk(u, key) && (t.keys[key].completed ==> u.keys[key] == t.keys[key])
  {
    if key == msg.body.key.value {
      CommitOnItsKey(c, t, msg, phase, now);
    } else {
      CommitOnOtherKeys(c, t, msg, phase, now, key);
    }
  }

  lemma CommitKeepsKnown(c: Deployment, t: Db, msg: Message, phase: Phase, now: int)
    requires SuccessesKnown(t) && msg.body.jobId.Some? && msg.body.jobId.value in t.jobs
    ensures SuccessesKnown(Commit(c, t, msg, phase, now).db)
  {
    hide SuccessEvents;
    CommitEvents(c, t, msg, phase, now, msg.body.jobId.value);
    JobsFrame(c, t, msg, phase, now);
  }

  lemma CommitKeepsKeys(c: Deployment, t: Db, msg: Message, phase: Phase, now: int)
    requires KeysOk(t) && AtHand(t, msg, phase) && msg.body.key.value != "" && msg.body.tool in c.registry
    requires msg.body.jobId == Some(t.keys[msg.body.key.value].jobId)
    ensures var u := Commit(c, t, msg, phase, now).db;
            KeysOk(u) && CompletedStay(t, u)
  {
    var u := Commit(c, t, msg, phase, now).db;
    assert KeyOk(t, msg.body.key.value);
    assert u.keys.Keys == t.keys.Keys by {
      KeysFrame(c, t, msg, phase, now);
    }
    forall k | k in t.keys ensures KeyOk(u, k) && (t.keys[k].completed ==> u.keys[k] == t.keys[k]) {
      CommitOnKey(c, t, msg, phase, now, k);
    }
  }

  lemma WorkKeepsHead(c: Deployment, w: World)
    requires QueueInv(c, w) && |w.hands| == 1 && RowsLinked(c, w.t) && KeysOk(w.t) && HeadOk(w.t, w.hands[0])
    requires Busy(w.hands[0])
    ensures HeadOk(AfterWork(c, w, 0).t, AfterWork(c, w, 0).hands[0])
  {
    var v := AfterWork(c, w, 0);
    var h := w.hands[0];
    var msg := h.batch[h.pos];
    assert InHand(w, 0, h.pos) && HoldsRow(c, w.t.rows, h, h.pos) && Linked(c, w.t, w.t.rows[msg.handle]);
    assert KeyOk(w.t, msg.body.key.value);
    CommitOnItsKey(c, w.t, msg, h.phase, w.clock);
    if Busy(v.hands[0]) && v.hands[0].pos > h.pos {
      assert InHand(w, 0, v.hands[0].pos) && HoldsRow(c, w.t.rows, h, v.hands[0].pos);
      assert Linked(c, w.t, w.t.rows[h.batch[v.hands[0].pos].handle]);
      KeysFrame(c, w.t, msg, h.phase, w.clock);
    }
  }

  lemma WorkKeepsCopies(c: Deployment, w: World)
    requires CopyInv(c, w) && |w.hands| == 1 && Busy(w.hands[0])
    ensures CopyInv(c, AfterWork(c, w, 0)) && CompletedStay(w.t, AfterWork(c, w, 0).t)
  {
    var h := w.hands[0];
    var msg := h.batch[h.pos];
    assert InHand(w, 0, h.pos) && HoldsRow(c, w.t.rows, h, h.pos) && Linked(c, w.t, w.t.rows[msg.handle]);
    WorkingKeeps(c, w, 0);
    CommitSameLinks(c, w.t, msg, h.phase, w.clock);
    LinksAfter(c, w.t, AfterWork(c, w, 0).t);
    CommitKeepsKeys(c, w.t, msg, h.phase, w.clock);
    CommitKeepsKnown(c, w.t, msg, h.phase, w.clock);
    WorkKeepsHead(c, w);
  }

  // ---------------------------------------------------------------- the other steps

  lemma SameKeysOk(t: Db, u: Db)
    requires KeysOk(t) && SuccessesKnown(t) && u.jobs == t.jobs && u.keys == t.keys
    requires u.events == t.events || exists e: Event :: u.events == t.events + [e] && e.kind != JobSucceeded
    ensures KeysOk(u) && SuccessesKnown(u)
  {
    forall k | k in u.keys ensures KeyOk(u, k) {
      assert KeyOk(t, k);
      if u.events != t.events {
        SuccessEventsAppend(t.events, u.events[|t.events|], t.keys[k].jobId);
      }
    }
  }

  lemma ReceiveWritesRowsOnly(c: Deployment, w: World, max: nat, timeout: int)
    requires |w.hands| == 1
    ensures var v := AfterReceive(c, w, 0, max, timeout);
            && SameLinks(w.t, v.t) && v.t.jobs == w.t.jobs && v.t.keys == w.t.keys && v.t.events == w.t.events
            && |v.hands| == 1 && v.hands[0].pos == 0 && v.hands[0].phase == Guard
  {
    hide Selected; hide Pristine;
  }

  lemma ReceiveKeepsCopies(c: Deployment, w: World, max: nat, timeout: int)
    requires CopyInv(c, w) && |w.hands| == 1 && !Busy(w.hands[0])
    ensures CopyInv(c, AfterReceive(c, w, 0, max, timeout))
  {
    hide KeysOk; hide SuccessesKnown; hide AfterReceive; hide SameLinks;
    var v := AfterReceive(c, w, 0, max, timeout);
    ReceivingKeeps(c, w, 0, max, timeout);
    ReceiveWritesRowsOnly(c, w, max, timeout);
    LinksAfter(c, w.t, v.t);
    SameKeysOk(w.t, v.t);
    if Busy(v.hands[0]) {
      assert InHand(v, 0, 0) && HoldsRow(c, v.t.rows, v.hands[0], 0);
      assert Linked(c, v.t, v.t.rows[v.hands[0].batch[0].handle]);
    }
  }

  /** Steps that write no job, no key and no success event. */
  lemma QuietKeepsCopies(c: Deployment, w: World, v: World)
    requires CopyInv(c, w) && QueueInv(c, v) && RowsLinked(c, v.t)
    requires v.t.jobs == w.t.jobs && v.t.keys == w.t.keys && v.hands == w.hands
    requires v.t.events == w.t.events || exists e: Event :: v.t.events == w.t.events + [e] && e.kind != JobSucceeded
    ensures CopyInv(c, v)
  {
    SameKeysOk(w.t, v.t);
  }

  lemma CopyIsLinked(c: Deployment, t: Db, u: Db, h: nat, now: int)
    requires RowsLinked(c, t) && h < |t.rows| && u.jobs == t.jobs && u.keys == t.keys
    requires u.rows == Published(t.rows, t.rows[h].queue, t.rows[h].body, now)
    ensures RowsLinked(c, u)
  {
    forall r | 0 <= r < |u.rows| ensures Linked(c, u, u.rows[r]) {
      assert Linked(c, t, t.rows[if r < |t.rows| then r else h]);
    }
  }

  lemma EnqueueKeepsCopies(c: Deployment, w: World, s: Submission, v: World, e: Event)
    requires CopyInv(c, w) && QueueInv(c, v) && Entered(c, w, v, s)
    requires v.t.rows == Published(w.t.rows, c.queue, SubmissionBody(s.req, s.args, s.f), w.clock)
    requires v.t.events == w.t.events + [e] && e.kind != JobSucceeded
    ensures CopyInv(c, v)
  {
    var n := |w.t.rows|;
    forall r | 0 <= r < |v.t.rows| ensures Linked(c, v.t, v.t.rows[r]) {
      if r < n {
        assert Linked(c, w.t, w.t.rows[r]) && v.t.rows[r] == w.t.rows[r];
      }
    }
    forall k | k in v.t.keys ensures KeyOk(v.t, k) {
      SuccessEventsAppend(w.t.events, e, v.t.keys[k].jobId);
      if k == EffectiveKey(s.req, s.f) {
        NoSuccessYet(w.t.events, s.f.jobId);
      } else {
        assert KeyOk(w.t, k);
      }
    }
  }

  lemma CallKeepsCopies(c: Deployment, w: World, req: Request, f: Fresh, res: HandlerResult)
    requires CopyInv(c, w) && FreshIn(w, f)
    ensures CopyInv(c, AfterCall(c, w, req, f, res)) && CompletedStay(w.t, AfterCall(c, w, req, f, res).t)
  {
    hide SuccessEvents; hide Linked;
    var v := AfterCall(c, w, req, f, res);
    var r := Route(c, w.t, req, f, res);
    assert v == Apply(c, w, Call(req, f, res));
    StepKeepsQueue(c, w, Call(req, f, res));
    InvokeTables(c, w.t, req, f, res, w.clock);
    assert v.t.events == w.t.events + [CallEvent(req, r.response)];
    if r.change.Enqueue? {
      var s := CallEnters(c, w, req, f, res);
      EnqueueKeepsCopies(c, w, s, v, CallEvent(req, r.response));
    } else {
      LinksAfter(c, w.t, v.t);
      QuietKeepsCopies(c, w, v);
    }
  }

  lemma RepublishKeepsCopies(c: Deployment, w: World, h: nat)
    requires CopyInv(c, w) && h < |w.t.rows|
    ensures CopyInv(c, Apply(c, w, Republish(h)))
  {
    var v := Apply(c, w, Republish(h));
    StepKeepsQueue(c, w, Republish(h));
    CopyIsLinked(c, w.t, v.t, h, w.clock);
    QuietKeepsCopies(c, w, v);
  }

  lemma GrantKeepsCopies(c: Deployment, w: World, who: Principal, id: string)
    requires CopyInv(c, w) && MayApprove(w.t, who, id)
    ensures CopyInv(c, Apply(c, w, Grant(who, id)))
  {
    var v := Apply(c, w, Grant(who, id));
    StepKeepsQueue(c, w, Grant(who, id));
    LinksAfter(c, w.t, v.t);
    assert v.t.events == w.t.events + [GrantEvent(who, w.t.approvals[id].tool, id)];
    QuietKeepsCopies(c, w, v);
  }

  lemma StepKeepsCopies(c: Deployment, w: World, s: Step)
    requires CopyInv(c, w) && Copying(s)
    ensures CopyInv(c, Apply(c, w, s)) && CompletedStay(w.t, Apply(c, w, s).t)
  {
    hide QueueInv; hide KeysOk; hide RowsLinked; hide AfterCall; hide Commit;
    match s
    case Call(req, f, res) =>
      if FreshIn(w, f) {
        CallKeepsCopies(c, w, req, f, res);
      }
    case Grant(who, id) =>
      if MayApprove(w.t, who, id) {
        GrantKeepsCopies(c, w, who, id);
      }
    case Republish(h) =>
      if h < |w.t.rows| {
        RepublishKeepsCopies(c, w, h);
      }
    case Receive(i, max, timeout) =>
      if i < |w.hands| && !Busy(w.hands[i]) {
        ReceiveKeepsCopies(c, w, max, timeout);
      }
    case Work(i) =>
      if i < |w.hands| && Busy(w.hands[i]) {
        WorkKeepsCopies(c, w);
      }
    case _ => StepKeepsQueue(c, w, s);
  }

  lemma {:induction false} RunKeepsCopies(c: Deployment, w: World, steps: seq<Step>)
    requires CopyInv(c, w) && CopiesOnly(steps)
    ensures CopyInv(c, Run(c, w, steps)) && CompletedStay(w.t, Run(c, w, steps).t)
    decreases |steps|
  {
    if steps != [] {
      StepKeepsCopies(c, w, steps[0]);
      RunKeepsCopies(c, Apply(c, w, steps[0]), steps[1..]);
    }
  }

  // ---------------------------------------------------------------- record before settle

  /** A completed row has a completed key. */
  ghost predicate SettledOk(c: Deployment, t: Db)
  {
    forall r :: 0 <= r < |t.rows| && t.rows[r].status == Completed ==>
      Linked(c, t, t.rows[r]) && t.keys[t.rows[r].body.key.value].completed
  }

  lemma CompletedKeysStay(c: Deployment, t: Db, u: Db, r: nat)
    requires r < |t.rows| && r < |u.rows| && u.rows[r].body == t.rows[r].body
    requires Linked(c, t, t.rows[r]) && t.keys[t.rows[r].body.key.value].completed && CompletedStay(t, u)
    requires RowsLinked(c, u)
    ensures Linked(c, u, u.rows[r]) && u.keys[u.rows[r].body.key.value].completed
  {
  }

  /** A worker completes a row only when the row's key is completed. */
  lemma CompletesOnlyRecorded(c: Deployment, w: World, r: nat)
    requires CopyInv(c, w) && |w.hands| == 1 && Busy(w.hands[0]) && r < |w.t.rows|
    requires w.t.rows[r].status != Completed
    ensures var v := AfterWork(c, w, 0);
            r < |v.t.rows| && v.t.rows[r].body == w.t.rows[r].body
            && (v.t.rows[r].status == Completed ==>
                  Linked(c, w.t, w.t.rows[r]) && w.t.keys[w.t.rows[r].body.key.value].completed)
  {
    var h := w.hands[0];
    var msg := h.batch[h.pos];
    assert InHand(w, 0, h.pos) && HoldsRow(c, w.t.rows, h, h.pos);
    CommitTouchesOneRow(c, w.t, msg, h.phase, w.clock);
    assert Linked(c, w.t, w.t.rows[r]);
  }

  lemma StepKeepsSettled(c: Deployment, w: World, s: Step)
    requires CopyInv(c, w) && SettledOk(c, w.t) && Copying(s)
    ensures SettledOk(c, Apply(c, w, s).t)
  {
    var v := Apply(c, w, s);
    StepKeepsCopies(c, w, s);
    forall r: nat | r < |v.t.rows| && v.t.rows[r].status == Completed
      ensures Linked(c, v.t, v.t.rows[r]) && v.t.keys[v.t.rows[r].body.key.value].completed
    {
      WasRecorded(c, w, s, r);
      CompletedKeysStay(c, w.t, v.t, r);
    }
  }

  lemma WorkWasRecorded(c: Deployment, w: World, r: nat)
    requires CopyInv(c, w) && SettledOk(c, w.t) && |w.hands| == 1 && Busy(w.hands[0])
    requires r < |AfterWork(c, w, 0).t.rows| && AfterWork(c, w, 0).t.rows[r].status == Completed
    ensures r < |w.t.rows| && AfterWork(c, w, 0).t.rows[r].body == w.t.rows[r].body
    ensures Linked(c, w.t, w.t.rows[r]) && w.t.keys[w.t.rows[r].body.key.value].completed
  {
    hide AfterWork; hide Linked;
    CommitKeepsRowCount(c, w);
    if w.t.rows[r].status != Completed {
      CompletesOnlyRecorded(c, w, r);
    } else {
      WorkOnRow(c, w, 0, r);
    }
  }

  /** A row that is completed after a step had a completed key before it. */
  lemma WasRecorded(c: Deployment, w: World, s: Step, r: nat)
    requires CopyInv(c, w) && SettledOk(c, w.t) && Copying(s)
    requires r < |Apply(c, w, s).t.rows| && Apply(c, w, s).t.rows[r].status == Completed
    ensures r < |w.t.rows| && Apply(c, w, s).t.rows[r].body == w.t.rows[r].body
    ensures Linked(c, w.t, w.t.rows[r]) && w.t.keys[w.t.rows[r].body.key.value].completed
  {
    hide CopyInv; hide Linked; hide AfterWork; hide AfterCall;
    if s.Work? && s.worker < |w.hands| && Busy(w.hands[s.worker]) {
      AtMostOneHand(c, w);
      WorkWasRecorded(c, w, r);
    } else if !s.Receive? && !s.Work? && !s.Crash? {
      OutsideStepsAppend(c, w, s);
      assert r < |w.t.rows| && Apply(c, w, s).t.rows[r] == Apply(c, w, s).t.rows[..|w.t.rows|][r];
    }
  }

  lemma AtMostOneHand(c: Deployment, w: World)
    requires CopyInv(c, w)
    ensures |w.hands| <= 1
  {
  }

  lemma CommitKeepsRowCount(c: Deployment, w: World)
    requires CopyInv(c, w) && |w.hands| == 1 && Busy(w.hands[0])
    ensures |AfterWork(c, w, 0).t.rows| == |w.t.rows|
  {
    var h := w.hands[0];
    assert InHand(w, 0, h.pos) && HoldsRow(c, w.t.rows, h, h.pos);
    CommitTouchesOneRow(c, w.t, h.batch[h.pos], h.phase, w.clock);
  }

  lemma {:induction false} RunKeepsSettled(c: Deployment, w: World, steps: seq<Step>)
    requires CopyInv(c, w) && SettledOk(c, w.t) && CopiesOnly(steps)
    ensures SettledOk(c, Run(c, w, steps).t)
    decreases |steps|
  {
    if steps != [] {
      StepKeepsCopies(c, w, steps[0]);
      StepKeepsSettled(c, w, steps[0]);
      RunKeepsSettled(c, Apply(c, w, steps[0]), steps[1..]);
    }
  }

  // ---------------------------------------------------------------- main results

  /** However many copies of its message are delivered, a key's job is recorded as succeeded at most once. */
  lemma AtMostOneSuccessEvent(c: Deployment, workers: nat, steps: seq<Step>, key: string)
    requires workers <= 1 && CopiesOnly(steps) && key in Run(c, Init(workers), steps).t.keys
    ensures var t := Run(c, Init(workers), steps).t;
            && SuccessEvents(t.events, t.keys[key].jobId) <= 1
            && (SuccessEvents(t.events, t.keys[key].jobId) == 1 <==> t.keys[key].completed)
  {
    RunKeepsCopies(c, Init(workers), steps);
    assert KeyOk(Run(c, Init(workers), steps).t, key);
  }

  /** Once a key is completed its job is succeeded with the key's result, in every continuation. */
  lemma CompletedForever(c: Deployment, before: seq<Step>, after: seq<Step>, key: string)
    requires CopiesOnly(before) && CopiesOnly(after)
    requires key in Run(c, Init(1), before).t.keys && Run(c, Init(1), before).t.keys[key].completed
    ensures var t, u := Run(c, Init(1), before).t, Run(c, Init(1), before + after).t;
            && key in u.keys && u.keys[key] == t.keys[key] && t.keys[key].result.Some?
            && t.keys[key].jobId in u.jobs && u.jobs[t.keys[key].jobId].status == Succeeded
            && u.jobs[t.keys[key].jobId].result == t.keys[key].result
  {
    var w := Run(c, Init(1), before);
    RunKeepsCopies(c, Init(1), before);
    RunKeepsCopies(c, w, after);
    RunConcat(c, Init(1), before, after);
    assert KeyOk(w.t, key) && KeyOk(Run(c, w, after).t, key);
  }

  /**
   * With copies too, at every commit point a completed row has a completed key and a succeeded job that carries the
   * key's result.
   */
  lemma CompletedRowIsRecorded(c: Deployment, steps: seq<Step>, r: nat)
    requires CopiesOnly(steps) && r < |Run(c, Init(1), steps).t.rows|
    requires Run(c, Init(1), steps).t.rows[r].status == Completed
    ensures var t := Run(c, Init(1), steps).t;
            && Linked(c, t, t.rows[r])
            && var k, job := t.keys[t.rows[r].body.key.value], t.jobs[t.rows[r].body.jobId.value];
               k.completed && job.status == Succeeded && k.result.Some? && job.result == k.result
  {
    var t := Run(c, Init(1), steps).t;
    RunKeepsCopies(c, Init(1), steps);
    RunKeepsSettled(c, Init(1), steps);
    assert Linked(c, t, t.rows[r]) && KeyOk(t, t.rows[r].body.key.value);
  }
}
