/**
 * Schedules from the start that reach what the guarantees leave open: a lock that never ends, a duplicate that is not
 * noted, an approval that is used twice, a success that is recorded twice. Each exists for every deployment with a tool
 * of the right kind.
 */
module Witnesses {
  import opened Values
  import opened Tables
  import opened Catalog
  import opened Gateway
  import opened Worker
  import opened Protocol
  import opened QueueRuns
  import opened OpenSubmissions
  import opened DeliveryRuns
  import opened DeliveryTheorems
  import opened Duplicates
  import opened Serial
  import opened JobAccounts
  import opened GatewayRuns

  // ---------------------------------------------------------------- building schedules

  lemma RunTwo(c: Deployment, w: World, s1: Step, s2: Step)
    ensures Run(c, w, [s1, s2]) == Apply(c, Apply(c, w, s1), s2)
  {
    RunSnoc(c, w, [], s1);
    RunSnoc(c, w, [s1], s2);
    assert [] + [s1] == [s1] && [s1] + [s2] == [s1, s2];
    assert Run(c, w, []) == w;
  }

  // ---------------------------------------------------------------- a lock that never ends

  /** An accepted first submission leaves one ready row and an open key. */
  lemma FirstSubmission(c: Deployment, workers: nat, req: Request, f: Fresh, args: Dict, res: HandlerResult)
    returns (body: Body)
    requires Admits(c, req, args) && AsyncOnly(c.registry[req.tool]) && FreshIds(EMPTY, f)
    ensures var w := Apply(c, Init(workers), Call(req, f, res));
            && w.t.rows == [Row(c.queue, body, Available, 0, 0, None)] && w.clock == 0 && w.hands == Init(workers).hands
            && w.t.events == [CallEvent(req, Route(c, EMPTY, req, f, res).response)] && w.lost == []
            && body.tool == req.tool && body.jobId == Some(f.jobId) && body.key == Some(EffectiveKey(req, f))
            && body.key.value != "" && body.key.value in w.t.keys && !w.t.keys[body.key.value].completed
            && f.jobId in w.t.jobs
  {
    var change := Route(c, EMPTY, req, f, res).change;
    WhatEnqueues(c, EMPTY, req, f, res);
    InvokeTables(c, EMPTY, req, f, res, 0);
    body := change.body;
  }

  lemma OnlyOne(row: Row, queue: string, now: int)
    requires IsReady(row, queue, now)
    ensures Selected([row], queue, now, 1) == [0]
  {
    assert [row][..0] == [];
  }

  lemma ClaimOnly(c: Deployment, w: World, timeout: int)
    requires |w.t.rows| == 1 && IsReady(w.t.rows[0], c.queue, w.clock) && |w.hands| >= 1 && !Busy(w.hands[0])
    ensures var v := Apply(c, w, Receive(0, 1, timeout));
            && InHand(v, 0, 0) && v.hands[0].batch[0].handle == 0
            && |v.t.rows| == 1 && v.t.rows[0].status == Locked
  {
    OnlyOne(w.t.rows[0], c.queue, w.clock);
    assert w.t.rows == [w.t.rows[0]];
  }

  /**
   * A worker that crashes with a message in hand leaves its row locked, and no continuation, however long, changes
   * that: the visibility timeout plays no part.
   */
  lemma LockNeverEnds(c: Deployment, workers: nat, req: Request, f: Fresh, args: Dict, res: HandlerResult, timeout: int)
    returns (steps: seq<Step>)
    requires Admits(c, req, args) && AsyncOnly(c.registry[req.tool]) && FreshIds(EMPTY, f) && workers >= 1
    ensures GatewayOnly(c, Init(workers), steps)
    ensures forall rest :: |Run(c, Init(workers), steps + rest).t.rows| > 0
                           && Run(c, Init(workers), steps + rest).t.rows[0].status == Locked
  {
    var body := FirstSubmission(c, workers, req, f, args, res);
    var call, claim := Call(req, f, res), Receive(0, 1, timeout);
    var w := Apply(c, Apply(c, Init(workers), call), claim);
    ClaimOnly(c, Apply(c, Init(workers), call), timeout);
    hide Apply;
    RunTwo(c, Init(workers), call, claim);
    RunSnoc(c, Init(workers), [call, claim], Crash(0));
    steps := [call, claim] + [Crash(0)];
    WholeIsGatewayOnly(c, Init(workers), steps);
    QueueInvariant(c, workers, [call, claim]);
    forall rest ensures |Run(c, Init(workers), steps + rest).t.rows| > 0
                        && Run(c, Init(workers), steps + rest).t.rows[0].status == Locked
    {
      RunConcat(c, Init(workers), steps, rest);
      CrashStrands(c, w, 0, 0, rest);
    }
  }

  // ---------------------------------------------------------------- copies

  /** A submitted message and a copy of it, both ready, the key open, and the first workers idle. */
  predicate CopyWaits(c: Deployment, w: World, body: Body)
  {
    && w.t.rows == [Row(c.queue, body, Available, 0, 0, None), Row(c.queue, body, Available, 0, 0, None)]
    && w.clock == 0 && (forall a :: 0 <= a < |w.hands| ==> w.hands[a] == IDLE)
    && body.tool in c.registry && body.jobId.Some? && Truthy(body.key)
    && body.key.value in w.t.keys && !w.t.keys[body.key.value].completed
  }

  lemma SubmitAndCopy(c: Deployment, workers: nat, req: Request, f: Fresh, args: Dict, res: HandlerResult)
    returns (body: Body)
    requires Admits(c, req, args) && AsyncOnly(c.registry[req.tool]) && FreshIds(EMPTY, f)
    ensures var w := Run(c, Init(workers), [Call(req, f, res), Republish(0)]);
            && CopyWaits(c, w, body) && body.jobId == Some(f.jobId) && |w.hands| == workers
            && SuccessEvents(w.t.events, f.jobId) == 0
  {
    body := FirstSubmission(c, workers, req, f, args, res);
    RunTwo(c, Init(workers), Call(req, f, res), Republish(0));
    NoSuccessYet(Apply(c, Init(workers), Call(req, f, res)).t.events, f.jobId);
  }

  lemma FirstOfTwo(rows: seq<Row>, queue: string, now: int)
    requires |rows| == 2 && IsReady(rows[1], queue, now)
    ensures Selected(rows, queue, now, 1) == if IsReady(rows[0], queue, now) then [0] else [1]
  {
    assert rows[..1][..0] == [] && rows[..1][0] == rows[0];
    assert Ready(rows[..1], queue, now) == if IsReady(rows[0], queue, now) then [0] else [];
  }

  // ---------------------------------------------------------------- a duplicate that is not noted

  /** A worker that handles the submitted message completes its row and its key. */
  lemma FirstCopyCompletes(c: Deployment, w: World, body: Body)
    requires CopyWaits(c, w, body) && |w.hands| >= 1 && c.handler(0, 1).Returned?
    ensures var v := Poll(c, w, 0, 1, 0);
            CopyLeft(c, v, body)
  {
    FirstOfTwo(w.t.rows, c.queue, 0);
    var claimed := Received(c, w.t, 1, 0, 0);
    var msg := Message(body, 1, 0);
    assert Batch(c, w.t, 1, 0) == [msg];
    PollIsPollOnce(c, w, 0, 1, 0);
    DriveFrame(c, AfterReceive(c, w, 0, 1, 0), 0);
    BatchCommitsStep(c, claimed, [msg], 0, 0);
    BatchEnds(c, Finished(c, claimed, msg, Guard, 0), [msg], 0);
    AttemptIsRecorded(c, claimed, msg, 0);
  }

  /** The first row is completed, its copy is ready, and so is a worker. */
  predicate CopyLeft(c: Deployment, w: World, body: Body)
  {
    && |w.t.rows| == 2 && w.t.rows[1] == Row(c.queue, body, Available, 0, 0, None) && w.clock == 0
    && w.t.rows[0].status == Completed && w.t.rows[0].body == body && CompletedResult(w.t, body).Some?
    && |w.hands| >= 1 && !Busy(w.hands[0])
  }

  /** The worker has the copy in hand. */
  predicate CopyInHand(w: World, body: Body, phase: Phase)
  {
    && |w.hands| >= 1 && w.hands[0] == Hand([Message(body, 1, 1)], 0, phase)
    && |w.t.rows| == 2 && w.t.rows[0].status == Completed && w.t.rows[0].body == body && w.t.rows[1].body == body
    && CompletedResult(w.t, body).Some?
  }

  lemma ClaimCopy(c: Deployment, w: World, body: Body)
    requires CopyLeft(c, w, body)
    ensures CopyInHand(AfterReceive(c, w, 0, 1, 0), body, Guard)
  {
    FirstOfTwo(w.t.rows, c.queue, 0);
    assert Batch(c, w.t, 1, 0) == [Message(body, 1, 1)];
    var claimed := AfterReceive(c, w, 0, 1, 0);
    assert claimed.t == w.t.(rows := claimed.t.rows);
  }

  lemma RecogniseCopy(c: Deployment, w: World, body: Body)
    requires CopyInHand(w, body, Guard)
    ensures CopyInHand(AfterWork(c, w, 0), body, SettleDuplicate(CompletedResult(w.t, body).value))
  {
  }

  /** The crash falls between the settle and the note. */
  lemma SettleAndCrash(c: Deployment, w: World, body: Body, result: Dict)
    requires CopyInHand(w, body, SettleDuplicate(result))
    ensures var v := Apply(c, AfterWork(c, w, 0), Crash(0));
            && |v.t.rows| == 2 && Message(body, 1, 1) in v.lost
            && forall r :: 0 <= r < 2 ==> v.t.rows[r].status == Completed && v.t.rows[r].body == body
  {
    var u := AfterWork(c, w, 0);
    assert u.hands[0] == Hand([Message(body, 1, 1)], 0, NoteDuplicate(result));
    assert Unrecorded(u.hands[0]) == [Message(body, 1, 1)];
  }

  lemma CopyIsIdle(c: Deployment, w: World, body: Body)
    requires CopyLeft(c, w, body)
    ensures |w.hands| >= 1 && !Busy(w.hands[0])
  {
  }

  lemma CrashOnCopy(c: Deployment, w: World, body: Body)
    requires CopyLeft(c, w, body)
    ensures var u := AfterReceive(c, w, 0, 1, 0);
            && |u.hands| >= 1 && Busy(u.hands[0])
            && var v := AfterWork(c, u, 0);
               && |v.hands| >= 1 && Busy(v.hands[0])
               && Run(c, w, [Receive(0, 1, 0), Work(0), Work(0), Crash(0)]) == Apply(c, AfterWork(c, v, 0), Crash(0))
  {
    hide AfterReceive; hide AfterWork; hide CompletedResult;
    CopyIsIdle(c, w, body);
    ClaimCopy(c, w, body);
    var u := AfterReceive(c, w, 0, 1, 0);
    RecogniseCopy(c, u, body);
    RunTwo(c, w, Receive(0, 1, 0), Work(0));
    RunSnoc(c, w, [Receive(0, 1, 0), Work(0)], Work(0));
    RunSnoc(c, w, [Receive(0, 1, 0), Work(0)] + [Work(0)], Crash(0));
    assert [Receive(0, 1, 0), Work(0), Work(0), Crash(0)] == [Receive(0, 1, 0), Work(0)] + [Work(0)] + [Crash(0)];
  }

  /**
   * A crash can leave a completed row without its `duplicate_skipped` event: all rows of the job are completed, and it
   * has fewer events than deliveries.
   */
  lemma DuplicateNotNoted(c: Deployment, workers: nat, req: Request, f: Fresh, args: Dict, res: HandlerResult)
    returns (steps: seq<Step>)
    requires Admits(c, req, args) && AsyncOnly(c.registry[req.tool]) && FreshIds(EMPTY, f) && workers >= 1
    requires c.handler(0, 1).Returned?
    ensures CopiesOnly(steps)
    ensures var t := Run(c, Init(workers), steps).t;
            && |t.rows| == 2
            && (forall r :: 0 <= r < 2 ==> t.rows[r].status == Completed && t.rows[r].body.jobId == Some(f.jobId))
            && JobEvents(t.events, f.jobId) < DeliveriesOf(t.rows, f.jobId)
  {
    hide Poll; hide AfterReceive; hide AfterWork; hide CompletedResult; hide CopyLeft;
    hide CopyWaits; hide SuccessEvents;
    hide JobEvents; hide DeliveriesOf; hide Admits;
    var body := SubmitAndCopy(c, workers, req, f, args, res);
    var submit := [Call(req, f, res), Republish(0)];
    var w1 := Run(c, Init(workers), submit);
    FirstCopyCompletes(c, w1, body);
    var poll := PollIsRun(c, w1, 0, 1, 0);
    var w2 := Poll(c, w1, 0, 1, 0);
    RunConcat(c, Init(workers), submit, poll);
    ClaimCopy(c, w2, body);
    var w3 := AfterReceive(c, w2, 0, 1, 0);
    RecogniseCopy(c, w3, body);
    var w4 := AfterWork(c, w3, 0);
    SettleAndCrash(c, w4, body, CompletedResult(w3.t, body).value);
    var crash := [Receive(0, 1, 0), Work(0), Work(0), Crash(0)];
    assert Run(c, w2, crash) == Apply(c, AfterWork(c, w4, 0), Crash(0)) by {
      CrashOnCopy(c, w2, body);
    }
    RunConcat(c, Init(workers), submit + poll, crash);
    steps := submit + poll + crash;
    MissingEvent(c, workers, steps, f.jobId, Message(body, 1, 1));
  }

  /** A job with a dropped message has fewer events than deliveries. */
  lemma MissingEvent(c: Deployment, workers: nat, steps: seq<Step>, id: string, m: Message)
    requires m in Run(c, Init(workers), steps).lost && RequestId(m.body) == id
    ensures var t := Run(c, Init(workers), steps).t;
            JobEvents(t.events, id) < DeliveriesOf(t.rows, id)
  {
    JobConservation(c, workers, steps, id);
    AmongIsMembership(Run(c, Init(workers), steps).lost, id);
  }

  // ---------------------------------------------------------------- one success iff at most one worker

  /** The message that worker `a` works on. */
  function Current(w: World, a: nat): Message
    requires a < |w.hands| && Busy(w.hands[a])
  {
    w.hands[a].batch[w.hands[a].pos]
  }

  /** Worker `a` is past the guard with a message of this job for which the tool will return. */
  predicate AboutToSucceed(c: Deployment, w: World, a: nat, jobId: string)
  {
    && a < |w.hands| && Busy(w.hands[a]) && w.hands[a].phase == Mark && Current(w, a).body.jobId == Some(jobId)
    && c.handler(Current(w, a).handle, Current(w, a).deliveries).Returned?
  }

  /** A worker past the guard runs the tool and records the success, whatever others recorded meanwhile. */
  lemma RunAndRecord(c: Deployment, w: World, a: nat, jobId: string) returns (steps: seq<Step>)
    requires AboutToSucceed(c, w, a, jobId)
    ensures CopiesOnly(steps)
    ensures var v := Run(c, w, steps);
            && SuccessEvents(v.t.events, jobId) == SuccessEvents(w.t.events, jobId) + 1
            && |v.hands| == |w.hands| && forall b :: 0 <= b < |w.hands| && b != a ==> v.hands[b] == w.hands[b]
  {
    hide SuccessEvents;
    var msg := Current(w, a);
    var res := c.handler(msg.handle, msg.deliveries);
    var u := AfterWork(c, AfterWork(c, w, a), a);
    RunTwo(c, w, Work(a), Work(a));
    assert u.hands[a].phase == Record(res) && u.t.events == w.t.events;
    CommitEvents(c, u.t, msg, Record(res), w.clock, jobId);
    RunSnoc(c, w, [Work(a), Work(a)], Work(a));
    steps := [Work(a), Work(a)] + [Work(a)];
  }

  /** Each of two workers claims one of the two rows. */
  lemma ClaimBoth(c: Deployment, w: World, body: Body)
    requires CopyWaits(c, w, body) && |w.hands| >= 2
    ensures var v := AfterReceive(c, AfterReceive(c, w, 0, 1, 0), 1, 1, 0);
            && v.t == w.t.(rows := v.t.rows) && |v.hands| == |w.hands|
            && v.hands[0] == Hand([Message(body, 1, 0)], 0, Guard)
                && v.hands[1] == Hand([Message(body, 1, 1)], 0, Guard)
  {
    FirstOfTwo(w.t.rows, c.queue, 0);
    var u := AfterReceive(c, w, 0, 1, 0);
    FirstOfTwo(u.t.rows, c.queue, 0);
    assert Batch(c, w.t, 1, 0) == [Message(body, 1, 0)];
    assert Batch(c, u.t, 1, 0) == [Message(body, 1, 1)];
  }

  /** With the key open and the tool known, both pass the guard. */
  lemma PassGuard(c: Deployment, w: World, body: Body, jobId: string)
    requires |w.hands| >= 2 && w.hands[0] == Hand([Message(body, 1, 0)], 0, Guard)
    requires w.hands[1] == Hand([Message(body, 1, 1)], 0, Guard)
    requires CompletedResult(w.t, body).None? && body.tool in c.registry && body.jobId == Some(jobId)
    requires c.handler(0, 1).Returned? && c.handler(1, 1).Returned?
    ensures var v := AfterWork(c, AfterWork(c, w, 0), 1);
            v.t == w.t && AboutToSucceed(c, v, 0, jobId) && AboutToSucceed(c, v, 1, jobId)
  {
  }

  /** Two workers that are both about to succeed both do. */
  lemma BothSucceed(c: Deployment, w: World, jobId: string) returns (steps: seq<Step>)
    requires AboutToSucceed(c, w, 0, jobId) && AboutToSucceed(c, w, 1, jobId)
    ensures CopiesOnly(steps)
    ensures SuccessEvents(Run(c, w, steps).t.events, jobId) == SuccessEvents(w.t.events, jobId) + 2
  {
    var first := RunAndRecord(c, w, 0, jobId);
    var second := RunAndRecord(c, Run(c, w, first), 1, jobId);
    RunConcat(c, w, first, second);
    steps := first + second;
  }

  /** Both workers can get past the guard. */
  lemma BothPastGuard(c: Deployment, w: World, body: Body, jobId: string)
    requires CopyWaits(c, w, body) && |w.hands| >= 2 && body.jobId == Some(jobId)
    requires c.handler(0, 1).Returned? && c.handler(1, 1).Returned?
    ensures var u := AfterReceive(c, AfterReceive(c, w, 0, 1, 0), 1, 1, 0);
            && |w.hands| >= 2 && !Busy(w.hands[0])
            && |AfterReceive(c, w, 0, 1, 0).hands| >= 2 && !Busy(AfterReceive(c, w, 0, 1, 0).hands[1])
            && |u.hands| >= 2 && Busy(u.hands[0]) && |AfterWork(c, u, 0).hands| >= 2
            && Busy(AfterWork(c, u, 0).hands[1])
            && var v := AfterWork(c, AfterWork(c, u, 0), 1);
               v.t.events == w.t.events && AboutToSucceed(c, v, 0, jobId) && AboutToSucceed(c, v, 1, jobId)
  {
    ClaimBoth(c, w, body);
    PassGuard(c, AfterReceive(c, AfterReceive(c, w, 0, 1, 0), 1, 1, 0), body, jobId);
  }

  lemma RaceOnCopies(c: Deployment, w: World, body: Body, jobId: string) returns (steps: seq<Step>)
    requires CopyWaits(c, w, body) && |w.hands| >= 2 && body.jobId == Some(jobId)
    requires c.handler(0, 1).Returned? && c.handler(1, 1).Returned?
    ensures CopiesOnly(steps)
    ensures SuccessEvents(Run(c, w, steps).t.events, jobId) == SuccessEvents(w.t.events, jobId) + 2
  {
    hide AfterReceive; hide AfterWork; hide AboutToSucceed; hide SuccessEvents; hide CopyWaits;
    BothPastGuard(c, w, body, jobId);
    var u := AfterReceive(c, AfterReceive(c, w, 0, 1, 0), 1, 1, 0);
    var race := BothSucceed(c, AfterWork(c, AfterWork(c, u, 0), 1), jobId);
    RunTwo(c, w, Receive(0, 1, 0), Receive(1, 1, 0));
    RunTwo(c, u, Work(0), Work(1));
    RunConcat(c, w, [Receive(0, 1, 0), Receive(1, 1, 0)], [Work(0), Work(1)]);
    RunConcat(c, w, [Receive(0, 1, 0), Receive(1, 1, 0)] + [Work(0), Work(1)], race);
    steps := [Receive(0, 1, 0), Receive(1, 1, 0)] + [Work(0), Work(1)] + race;
  }

  /**
   * For every plain async tool that a request may call and whose handler returns, two of the workers and one copy of
   * the message can record the job's success twice.
   */
  lemma TwoWorkersRecordTwice(c: Deployment, workers: nat, req: Request, f: Fresh, args: Dict, res: HandlerResult)
    returns (steps: seq<Step>)
    requires Admits(c, req, args) && AsyncOnly(c.registry[req.tool]) && FreshIds(EMPTY, f) && workers >= 2
    requires c.handler(0, 1).Returned? && c.handler(1, 1).Returned?
    ensures CopiesOnly(steps)
    ensures var t := Run(c, Init(workers), steps).t;
            && EffectiveKey(req, f) in t.keys && t.keys[EffectiveKey(req, f)].jobId == f.jobId
            && SuccessEvents(t.events, f.jobId) == 2
  {
    var body := SubmitAndCopy(c, workers, req, f, args, res);
    var submit := [Call(req, f, res), Republish(0)];
    var w := Run(c, Init(workers), submit);
    var race := RaceOnCopies(c, w, body, f.jobId);
    RunConcat(c, Init(workers), submit, race);
    steps := submit + race;
    KeyKeepsJob(c, workers, req, f, args, res, race);
  }

  lemma KeyKeepsJob(c: Deployment, workers: nat, req: Request, f: Fresh, args: Dict, res: HandlerResult,
                    rest: seq<Step>)
    requires Admits(c, req, args) && AsyncOnly(c.registry[req.tool]) && FreshIds(EMPTY, f)
    ensures var t := Run(c, Init(workers), [Call(req, f, res), Republish(0)] + rest).t;
            EffectiveKey(req, f) in t.keys && t.keys[EffectiveKey(req, f)].jobId == f.jobId
  {
    var w := Apply(c, Init(workers), Call(req, f, res));
    InvokeTables(c, EMPTY, req, f, res, 0);
    WhatEnqueues(c, EMPTY, req, f, res);
    assert [Call(req, f, res), Republish(0)] + rest == [Call(req, f, res)] + ([Republish(0)] + rest);
    RunSnoc(c, Init(workers), [], Call(req, f, res));
    assert [] + [Call(req, f, res)] == [Call(req, f, res)] && Run(c, Init(workers), []) == Init(workers);
    RunConcat(c, Init(workers), [Call(req, f, res)], [Republish(0)] + rest);
    RunKeepsJobIds(c, w, [Republish(0)] + rest, EffectiveKey(req, f));
  }

  /** A key never changes its job. */
  lemma {:induction false} RunKeepsJobIds(c: Deployment, w: World, steps: seq<Step>, key: string)
    requires key in w.t.keys
    ensures key in Run(c, w, steps).t.keys && Run(c, w, steps).t.keys[key].jobId == w.t.keys[key].jobId
    decreases |steps|
  {
    if steps != [] {
      StepKeepsJobIds(c, w, steps[0], key);
      RunKeepsJobIds(c, Apply(c, w, steps[0]), steps[1..], key);
    }
  }

  lemma StepKeepsJobIds(c: Deployment, w: World, s: Step, key: string)
    requires key in w.t.keys
    ensures key in Apply(c, w, s).t.keys && Apply(c, w, s).t.keys[key].jobId == w.t.keys[key].jobId
  {
    if s.Call? && Enqueues(c, w, s) {
      AnswerIsTheKeysJob(c, w.t, s.req, s.f, s.res, w.clock);
    } else if !Enqueues(c, w, s) {
      StepKeepsRecords(c, w, s);
    }
  }

  /** However the gateway's messages are copied, no job is recorded as succeeded twice. */
  ghost predicate AtMostOnce(c: Deployment, workers: nat)
  {
    forall steps, key :: CopiesOnly(steps) && key in Run(c, Init(workers), steps).t.keys ==>
      SuccessEvents(Run(c, Init(workers), steps).t.events, Run(c, Init(workers), steps).t.keys[key].jobId) <= 1
  }

  /**
   * One worker is what it takes: for every deployment with a plain async tool that may be called and returns, copies
   * are harmless if and only if there is at most one worker.
   */
  lemma AtMostOnceIffOneWorker(c: Deployment, workers: nat, req: Request, f: Fresh, args: Dict, res: HandlerResult)
    requires Admits(c, req, args) && AsyncOnly(c.registry[req.tool]) && FreshIds(EMPTY, f)
    requires c.handler(0, 1).Returned? && c.handler(1, 1).Returned?
    ensures AtMostOnce(c, workers) <==> workers <= 1
  {
    if workers <= 1 {
      forall steps, key | CopiesOnly(steps) && key in Run(c, Init(workers), steps).t.keys
        ensures var t := Run(c, Init(workers), steps).t;
                SuccessEvents(t.events, t.keys[key].jobId) <= 1
      {
        AtMostOneSuccessEvent(c, workers, steps, key);
      }
    } else {
      var steps := TwoWorkersRecordTwice(c, workers, req, f, args, res);
      assert EffectiveKey(req, f) in Run(c, Init(workers), steps).t.keys;
    }
  }

  // ---------------------------------------------------------------- an approval that is used twice

  /** The execution of an approved change consumes the approval and touches no other record. */
  lemma ExecuteApproved(c: Deployment, w: World, req: Request, args: Dict, f: Fresh, res: HandlerResult, id: string)
    requires ExecutesOn(c, req, args, id) && res.Returned? && FreshIn(w, f)
    requires id in w.t.approvals && w.t.approvals[id].status == Approved
    ensures var v := Apply(c, w, Call(req, f, res));
            && |v.trace| == |w.trace| + 1 && v.trace[..|w.trace|] == w.trace && Executes(v.trace[|w.trace|], id)
            && v.t.approvals.Keys == w.t.approvals.Keys && v.t.jobs == w.t.jobs && v.t.keys == w.t.keys
            && v.t.rows == w.t.rows && v.open == w.open
            && |v.t.calls| == |w.t.calls| + 1 && v.t.calls[..|w.t.calls|] == w.t.calls
            && v.t.calls[|w.t.calls|].requestId == f.requestId
  {
  }

  lemma ApproveIt(c: Deployment, w: World, who: Principal, id: string)
    requires who.role == ADMIN_ROLE && id in w.t.approvals
    ensures var v := Apply(c, w, Grant(who, id));
            && v.trace == w.trace + [ApprovedBy(who, id)] && v.t.approvals.Keys == w.t.approvals.Keys
            && v.t.approvals[id].status == Approved && v.t.jobs == w.t.jobs && v.t.keys == w.t.keys
            && v.t.rows == w.t.rows && v.t.calls == w.t.calls && v.open == w.open
  {
  }

  /** Approve, then execute. */
  lemma ApproveAndExecute(c: Deployment, w: World, who: Principal, req: Request, args: Dict, f: Fresh,
                          res: HandlerResult,
                          id: string)
    requires who.role == ADMIN_ROLE && id in w.t.approvals
    requires ExecutesOn(c, req, args, id) && res.Returned? && FreshIn(w, f)
    ensures var v := Run(c, w, [Grant(who, id), Call(req, f, res)]);
            && |v.trace| == |w.trace| + 2 && v.trace[..|w.trace|] == w.trace && Executes(v.trace[|w.trace| + 1], id)
            && v.t.approvals.Keys == w.t.approvals.Keys && v.t.jobs == w.t.jobs && v.t.keys == w.t.keys
            && v.t.rows == w.t.rows && v.open == w.open
            && |v.t.calls| == |w.t.calls| + 1 && v.t.calls[..|w.t.calls|] == w.t.calls
            && v.t.calls[|w.t.calls|].requestId == f.requestId
  {
    var u := Apply(c, w, Grant(who, id));
    ApproveIt(c, w, who, id);
    ExecuteApproved(c, u, req, args, f, res, id);
    hide Apply; hide FreshIn; hide Run;
    RunTwo(c, w, Grant(who, id), Call(req, f, res));
    assert Apply(c, u, Call(req, f, res)).trace[..|w.trace|] == u.trace[..|w.trace|];
  }

  lemma Propose(c: Deployment, workers: nat, req: Request, args: Dict, f: Fresh, res: HandlerResult)
    requires Admits(c, req, args) && c.registry[req.tool].classification != Destructive
    requires c.registry[req.tool].dryRunRequired && res.Returned? && FreshIds(EMPTY, f)
    ensures var v := Apply(c, Init(workers), Call(req, f, res));
            && |v.trace| == 1 && Proposes(v.trace[0], f.approvalId)
            && v.t.approvals.Keys == {f.approvalId} && v.t.jobs == map[] && v.t.keys == map[]
            && v.t.rows == [] && v.open == map[] && |v.t.calls| == 1 && v.t.calls[0].requestId == f.requestId
  {
  }

  lemma FreshBesides(w: World, g: Fresh, approvalId: string, one: string, two: string)
    requires FreshIds(EMPTY, g) && w.t.jobs == map[] && w.t.keys == map[] && w.t.rows == [] && w.open == map[]
    requires w.t.approvals.Keys == {approvalId} && g.approvalId != approvalId && g.requestId != one
                  && g.requestId != two
    requires forall n :: 0 <= n < |w.t.calls| ==> w.t.calls[n].requestId == one || w.t.calls[n].requestId == two
    ensures FreshIn(w, g)
  {
  }

  /**
   * One approval record, one dry run, two executions under request ids of their own: `approve` does not look at the
   * record's status.
   */
  lemma ApprovalUsedTwice(c: Deployment, workers: nat, dry: Request, dryArgs: Dict, f: Fresh, dryRes: HandlerResult,
                          who: Principal, req: Request, args: Dict, g: Fresh, h: Fresh, res: HandlerResult)
    returns (steps: seq<Step>)
    requires Admits(c, dry, dryArgs) && c.registry[dry.tool].classification != Destructive
    requires c.registry[dry.tool].dryRunRequired && dryRes.Returned? && FreshIds(EMPTY, f)
    requires who.role == ADMIN_ROLE && ExecutesOn(c, req, args, f.approvalId) && res.Returned?
    requires FreshIds(EMPTY, g) && g.approvalId != f.approvalId && g.requestId != f.requestId
    requires FreshIds(EMPTY, h) && h.approvalId != f.approvalId && h.requestId != f.requestId
                  && h.requestId != g.requestId
    ensures var trace := Run(c, Init(workers), steps).trace;
            && |trace| == 5 && Proposes(trace[0], f.approvalId)
            && Executes(trace[2], f.approvalId) && Executes(trace[4], f.approvalId)
  {
    hide Apply; hide Executes; hide Proposes; hide ExecutesOn; hide FreshIn; hide FreshIds; hide Admits;
    var id := f.approvalId;
    var propose := [Call(dry, f, dryRes)];
    var first, second := [Grant(who, id), Call(req, g, res)], [Grant(who, id), Call(req, h, res)];
    Propose(c, workers, dry, dryArgs, f, dryRes);
    RunSnoc(c, Init(workers), [], Call(dry, f, dryRes));
    assert [] + propose == propose && Run(c, Init(workers), []) == Init(workers);
    var w1 := Run(c, Init(workers), propose);
    FreshBesides(w1, g, f.approvalId, f.requestId, f.requestId);
    ApproveAndExecute(c, w1, who, req, args, g, res, id);
    var w2 := Run(c, w1, first);
    assert w2.t.calls[0] == w2.t.calls[..1][0];
    FreshBesides(w2, h, f.approvalId, f.requestId, g.requestId);
    ApproveAndExecute(c, w2, who, req, args, h, res, id);
    var w3 := Run(c, w2, second);
    assert w2.trace[0] == w2.trace[..1][0] && w3.trace[0] == w3.trace[..3][0] && w3.trace[2] == w3.trace[..3][2];
    RunConcat(c, Init(workers), propose, first);
    RunConcat(c, Init(workers), propose + first, second);
    steps := propose + first + second;
  }

  // ---------------------------------------------------------------- a run before the commit

  /** A worker with one message of an open key, from the lookup to the settle. */
  lemma WholeAttempt(c: Deployment, w: World, msg: Message)
    requires |w.hands| >= 1 && w.hands[0] == Hand([msg], 0, Guard)
    requires CompletedResult(w.t, msg.body).None? && msg.body.tool in c.registry
    requires c.handler(msg.handle, msg.deliveries).Returned?
    ensures var v := Drive(c, w, 0);
            && v.runs == RunsAfter(c, w.runs, msg, RunTool)
            && v.open == w.open && v.clock == w.clock && |v.hands| == |w.hands| && !Busy(v.hands[0])
            && v.t == Finished(c, w.t, msg, Guard, w.clock)
  {
    DriveProcesses(c, w, 0);
    BatchCommitsStep(c, w.t, [msg], 0, w.clock);
    BatchEnds(c, Finished(c, w.t, msg, Guard, w.clock), [msg], w.clock);
    DriveFrame(c, w, 0);
    AttemptRuns(c, w, msg);
  }

  lemma AttemptRuns(c: Deployment, w: World, msg: Message)
    requires |w.hands| >= 1 && w.hands[0] == Hand([msg], 0, Guard)
    requires CompletedResult(w.t, msg.body).None? && msg.body.tool in c.registry
    requires c.handler(msg.handle, msg.deliveries).Returned?
    ensures var v := Drive(c, w, 0);
            && v.runs == RunsAfter(c, w.runs, msg, RunTool)
            && v.open == w.open
  {
    var res := c.handler(msg.handle, msg.deliveries);
    var w1 := AfterWork(c, w, 0);
    assert w1.hands[0] == Hand([msg], 0, Mark);
    var w2 := AfterWork(c, w1, 0);
    assert w2.hands[0] == Hand([msg], 0, RunTool);
    var w3 := AfterWork(c, w2, 0);
    assert w3.hands[0] == Hand([msg], 0, Record(res));
    var w4 := AfterWork(c, w3, 0);
    assert w4.hands[0] == Hand([msg], 0, Settle(true));
    var w5 := AfterWork(c, w4, 0);
    assert !Busy(w5.hands[0]);
    hide AfterWork;
    assert Drive(c, w, 0) == Drive(c, w2, 0) == Drive(c, w4, 0) == w5;
  }

  /** A submission whose message a worker handles before the second commit. */
  predicate AnnouncedOnly(c: Deployment, w: World, req: Request, f: Fresh, body: Body)
  {
    && w.t.rows == [Row(c.queue, body, Available, 0, 0, None)] && w.clock == 0 && w.t.jobs == map[] && w.t.keys == map[]
    && w.runs == [] && w.t.calls == [] && w.t.approvals == map[]
    && body.tool in c.registry && body.jobId == Some(f.jobId) && body.key == Some(EffectiveKey(req, f))
    && f.jobId in w.open && w.open[f.jobId].req == req && w.open[f.jobId].f == f && w.open.Keys == {f.jobId}
    && forall a :: 0 <= a < |w.hands| ==> w.hands[a] == IDLE
  }

  lemma Announce(c: Deployment, workers: nat, req: Request, f: Fresh) returns (body: Body)
    requires Queueable(c, req) && FreshIds(EMPTY, f)
    ensures AnnouncedOnly(c, Apply(c, Init(workers), Submit(req, f)), req, f, body)
  {
    body := SubmissionBody(req, c.registry[req.tool].validate(req.arguments).value, f);
  }

  /** The worker runs the tool and completes the row; it finds neither job nor key to record the outcome in. */
  lemma RunsTooEarly(c: Deployment, w: World, req: Request, f: Fresh, body: Body)
    requires AnnouncedOnly(c, w, req, f, body) && |w.hands| >= 1 && c.handler(0, 1).Returned?
                  && EffectiveKey(req, f) != ""
    ensures var v := Poll(c, w, 0, 1, 0);
            && |v.t.rows| == 1 && v.t.rows[0].status == Completed && v.t.rows[0].body == body
            && body.jobId == Some(f.jobId)
            && v.t.jobs == map[] && v.t.keys == map[] && v.t.calls == [] && v.t.approvals == map[]
            && v.open == w.open && v.clock == 0 && |v.hands| == |w.hands| && !Busy(v.hands[0])
            && v.runs == [InWorker(body.tool, body.arguments, Message(body, 1, 0), c.handler(0, 1))]
  {
    OnlyOne(w.t.rows[0], c.queue, 0);
    var msg := Message(body, 1, 0);
    assert Batch(c, w.t, 1, 0) == [msg];
    var u := AfterReceive(c, w, 0, 1, 0);
    AttemptIsRecorded(c, u.t, msg, 0);
    WholeAttempt(c, u, msg);
    FinishedKeepsAudit(c, u.t, msg, Guard, 0);
    assert u.t.rows[0].status == Locked && u.t.rows[0].body == body;
  }

  /** A worker writes no call row and no approval, and brings no job. */
  lemma {:induction false} FinishedKeepsAudit(c: Deployment, t: Db, msg: Message, phase: Phase, now: int)
    ensures var u := Finished(c, t, msg, phase, now);
            u.calls == t.calls && u.approvals == t.approvals && u.jobs.Keys == t.jobs.Keys
    decreases Rank(phase)
  {
    RankDrops(c, t, msg, phase, now);
    var turn := Commit(c, t, msg, phase, now);
    CommitKeepsJobIds(c, t, msg, phase, now);
    if turn.next.Some? {
      FinishedKeepsAudit(c, turn.db, msg, turn.next.value, now);
    }
  }

  /**
   * A worker that handles the message between the two commits completes its row, and the job that comes with the second
   * commit stays queued: no row is left to deliver it.
   */
  lemma JobStaysQueued(c: Deployment, workers: nat, req: Request, f: Fresh) returns (steps: seq<Step>)
    requires Queueable(c, req) && FreshIds(EMPTY, f) && workers >= 1 && c.handler(0, 1).Returned?
    ensures NoForeign(steps)
    ensures var w := Run(c, Init(workers), steps);
            && w.open == map[] && |w.t.rows| == 1 && w.t.rows[0].status == Completed
            && w.t.rows[0].body.jobId == Some(f.jobId)
            && f.jobId in w.t.jobs && w.t.jobs[f.jobId].status == Queued
            && EffectiveKey(req, f) in w.t.keys && !w.t.keys[EffectiveKey(req, f)].completed
  {
    hide Poll;
    var body := Announce(c, workers, req, f);
    var w1 := Apply(c, Init(workers), Submit(req, f));
    RunsTooEarly(c, w1, req, f, body);
    var poll := PollIsRun(c, w1, 0, 1, 0);
    var w2 := Poll(c, w1, 0, 1, 0);
    SubmitThen(c, Init(workers), Submit(req, f), poll);
    RunSnoc(c, Init(workers), [Submit(req, f)] + poll, Conclude(f.jobId));
    steps := [Submit(req, f)] + poll + [Conclude(f.jobId)];
    var w3 := AfterConclude(c, w2, f.jobId);
    assert w3.open.Keys == {};
    assert w3.open == map[];
  }

  lemma SubmitThen(c: Deployment, w: World, s: Step, rest: seq<Step>)
    ensures Run(c, w, [s] + rest) == Run(c, Apply(c, w, s), rest)
  {
    assert ([s] + rest)[0] == s && ([s] + rest)[1..] == rest;
  }

  /** A resubmission under the same client key, after a gateway crash between the commits, is a first submission. */
  lemma Resubmit(c: Deployment, w: World, req: Request, g: Fresh, args: Dict, res: HandlerResult) returns (body: Body)
    requires Admits(c, req, args) && AsyncOnly(c.registry[req.tool]) && FreshIn(w, g)
    requires EffectiveKey(req, g) !in w.t.keys && EffectiveKey(req, g) != ""
    ensures var u := Apply(c, w, Call(req, g, res));
            && u.t.rows == Published(w.t.rows, c.queue, body, w.clock)
            && u.hands == w.hands && u.runs == w.runs && u.clock == w.clock
            && body.key == Some(EffectiveKey(req, g)) && body.tool in c.registry && CompletedResult(u.t, body).None?
  {
    var sub := CallEnters(c, w, req, g, res);
    body := SubmissionBody(req, sub.args, g);
  }

  /** The next poll runs the tool for the second row. */
  lemma RunSecond(c: Deployment, u: World, first: Row, body: Body)
    requires u.t.rows == [first, Row(c.queue, body, Available, 0, u.clock, None)] && first.status == Completed
    requires |u.hands| >= 1 && !Busy(u.hands[0]) && c.handler(1, 1).Returned?
    requires body.tool in c.registry && CompletedResult(u.t, body).None?
    ensures Poll(c, u, 0, 1, 0).runs
            == u.runs + [InWorker(body.tool, body.arguments, Message(body, 1, 1), c.handler(1, 1))]
  {
    FirstOfTwo(u.t.rows, c.queue, u.clock);
    var msg := Message(body, 1, 1);
    assert Batch(c, u.t, 1, u.clock) == [msg];
    var v := AfterReceive(c, u, 0, 1, 0);
    assert CompletedResult(v.t, body).None?;
    hide Drive; hide CompletedResult; hide Received; hide Batch;
    WholeAttempt(c, v, msg);
  }

  lemma ResubmitAndRun(c: Deployment, w: World, req: Request, g: Fresh, args: Dict, res: HandlerResult)
    returns (body: Body)
    requires Admits(c, req, args) && AsyncOnly(c.registry[req.tool]) && FreshIn(w, g)
    requires EffectiveKey(req, g) !in w.t.keys && EffectiveKey(req, g) != ""
    requires |w.t.rows| == 1 && w.t.rows[0].status == Completed && w.clock == 0
    requires |w.hands| >= 1 && !Busy(w.hands[0]) && c.handler(1, 1).Returned?
    ensures var u := Apply(c, w, Call(req, g, res));
            && |u.hands| >= 1 && !Busy(u.hands[0])
            && Poll(c, u, 0, 1, 0).runs
               == w.runs + [InWorker(body.tool, body.arguments, Message(body, 1, 1), c.handler(1, 1))]
            && body.key == Some(EffectiveKey(req, g))
  {
    hide Apply; hide Poll; hide CompletedResult; hide FreshIn;
    body := Resubmit(c, w, req, g, args, res);
    var u := Apply(c, w, Call(req, g, res));
    assert u.t.rows == [w.t.rows[0], Row(c.queue, body, Available, 0, u.clock, None)];
    RunSecond(c, u, w.t.rows[0], body);
  }

  /**
   * After a crash of the gateway between the two commits one worker can run the tool successfully twice under one
   * client key: once for the message that was published, once for the resubmission.
   */
  lemma KeyRunsTwice(c: Deployment, workers: nat, req: Request, f: Fresh, g: Fresh, args: Dict, res: HandlerResult)
    returns (steps: seq<Step>)
    requires Admits(c, req, args) && AsyncOnly(c.registry[req.tool]) && FreshIds(EMPTY, f) && FreshIds(EMPTY, g)
    requires g.jobId != f.jobId && g.requestId != f.requestId && req.key.Some? && req.key.value != ""
    requires workers >= 1 && c.handler(0, 1).Returned? && c.handler(1, 1).Returned?
    ensures NoForeign(steps)
    ensures Successes(RunsOf(Run(c, Init(workers), steps).runs, req.key.value)) == 2
  {
    hide Poll; hide AnnouncedOnly; hide FreshIn; hide Successes; hide RunsOf;
    var body := Announce(c, workers, req, f);
    var w1 := Apply(c, Init(workers), Submit(req, f));
    AnnouncedIdle(c, w1, req, f, body);
    RunsTooEarly(c, w1, req, f, body);
    var first := PollIsRun(c, w1, 0, 1, 0);
    var w2 := Poll(c, w1, 0, 1, 0);
    StillFresh(w2, req, f, g);
    var again := ResubmitAndRun(c, w2, req, g, args, res);
    var w3 := Apply(c, w2, Call(req, g, res));
    var second := PollIsRun(c, w3, 0, 1, 0);
    steps := [Submit(req, f)] + first + [Call(req, g, res)] + second;
    FourParts(c, Init(workers), Submit(req, f), first, Call(req, g, res), second);
    TwoSuccesses(InWorker(body.tool, body.arguments, Message(body, 1, 0), c.handler(0, 1)),
      InWorker(again.tool, again.arguments, Message(again, 1, 1), c.handler(1, 1)), req.key.value);
  }

  lemma FourParts(c: Deployment, w: World, a: Step, first: seq<Step>, b: Step, second: seq<Step>)
    ensures Run(c, w, [a] + first + [b] + second) == Run(c, Apply(c, Run(c, Apply(c, w, a), first), b), second)
  {
    SubmitThen(c, w, a, first);
    RunSnoc(c, w, [a] + first, b);
    RunConcat(c, w, [a] + first + [b], second);
  }

  lemma AnnouncedIdle(c: Deployment, w: World, req: Request, f: Fresh, body: Body)
    requires AnnouncedOnly(c, w, req, f, body)
    ensures |w.hands| >= 1 ==> !Busy(w.hands[0])
    ensures w.open.Keys == {f.jobId} && w.open[f.jobId].f == f && body.key == Some(EffectiveKey(req, f))
  {
  }

  lemma StillFresh(w: World, req: Request, f: Fresh, g: Fresh)
    requires w.open.Keys == {f.jobId} && w.open[f.jobId].f == f && |w.t.rows| == 1
                  && w.t.rows[0].body.jobId == Some(f.jobId)
    requires w.t.jobs == map[] && w.t.keys == map[] && w.t.calls == [] && w.t.approvals == map[]
    requires FreshIds(EMPTY, g) && g.jobId != f.jobId && g.requestId != f.requestId
    ensures FreshIn(w, g)
  {
  }

  lemma TwoSuccesses(a: HandlerRun, b: HandlerRun, key: string)
    requires a.InWorker? && a.res.Returned? && a.message.body.key == Some(key)
    requires b.InWorker? && b.res.Returned? && b.message.body.key == Some(key)
    ensures Successes(RunsOf([a] + [b], key)) == 2
  {
    assert ([a] + [b])[..1] == [a] && [a][..0] == [];
    assert RunsOf([], key) == [];
    assert RunsOf([a], key) == [a];
    assert RunsOf([a] + [b], key) == [a] + [b];
    assert Successes([]) == 0;
    assert Successes([a]) == 1;
  }
}
