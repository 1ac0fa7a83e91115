/**
 * Draining the queue: polling until a poll returns 0 terminates, for one worker and for any interleaving of several,
 * and leaves one verdict for each job.
 */
module Draining {
  import opened Values
  import opened Tables
  import opened Catalog
  import opened LocalQueue
  import opened Worker
  import opened Protocol
  import opened QueueRuns
  import opened DeliveryRuns
  import opened DeliveryTheorems
  import opened Serial

  // ---------------------------------------------------------------- the deliveries still possible

  function Left(c: Deployment, row: Row): nat
  {
    if Terminal(row) || row.deliveries >= Bound(c) then 0 else Bound(c) - row.deliveries
  }

  function Backlog(c: Deployment, rows: seq<Row>): nat
  {
    if rows == [] then 0 else Backlog(c, rows[..|rows| - 1]) + Left(c, rows[|rows| - 1])
  }

  lemma {:induction false} BacklogUpdate(c: Deployment, rows: seq<Row>, i: nat, row: Row)
    requires i < |rows|
    ensures Backlog(c, rows[i := row]) == Backlog(c, rows) - Left(c, rows[i]) + Left(c, row)
    decreases |rows|
  {
    var n := |rows| - 1;
    if i < n {
      assert rows[i := row][..n] == rows[..n][i := row];
      BacklogUpdate(c, rows[..n], i, row);
    } else {
      assert rows[i := row][..n] == rows[..n];
    }
  }

  lemma {:induction false} ClaimSpendsBacklog(c: Deployment, rows: seq<Row>, ids: seq<nat>, now: int, timeout: int)
    requires forall i :: 0 <= i < |ids| ==>
               ids[i] < |rows| && rows[ids[i]].status == Available && rows[ids[i]].deliveries < Bound(c)
    requires forall i, j :: 0 <= i < j < |ids| ==> ids[i] != ids[j]
    ensures Backlog(c, ClaimAll(rows, ids, now, timeout)) == Backlog(c, rows) - |ids|
    decreases |ids|
  {
    if ids == [] {
      assert ClaimAll(rows, ids, now, timeout) == rows;
    } else {
      var n := |ids| - 1;
      ClaimSpendsBacklog(c, rows, ids[..n], now, timeout);
      assert ids[..n + 1] == ids;
      ClaimOneMore(rows, ids, n, now, timeout);
      BacklogUpdate(c, ClaimAll(rows, ids[..n], now, timeout), ids[n], ClaimRow(rows[ids[n]], now, timeout));
    }
  }

  lemma ReceiveSpendsBacklog(c: Deployment, w: World, i: nat, max: nat, timeout: int)
    requires QueueInv(c, w) && i < |w.hands|
    ensures Backlog(c, AfterReceive(c, w, i, max, timeout).t.rows)
            == Backlog(c, w.t.rows) - |Batch(c, w.t, max, w.clock)|
  {
    var ids := Selected(w.t.rows, c.queue, w.clock, max);
    SelectedExact(w.t.rows, c.queue, w.clock, max);
    forall k | 0 <= k < |ids|
      ensures w.t.rows[ids[k]].status == Available && w.t.rows[ids[k]].deliveries < Bound(c)
    {
      assert ids[k] in ids && RowOk(c, w.t.rows[ids[k]], w.clock);
    }
    ClaimSpendsBacklog(c, w.t.rows, ids, w.clock, timeout);
  }

  lemma WorkKeepsBacklog(c: Deployment, w: World, i: nat)
    requires QueueInv(c, w) && i < |w.hands| && Busy(w.hands[i])
    ensures Backlog(c, AfterWork(c, w, i).t.rows) <= Backlog(c, w.t.rows)
  {
    var h := w.hands[i];
    var msg := h.batch[h.pos];
    assert InHand(w, i, h.pos) && HoldsRow(c, w.t.rows, h, h.pos);
    CommitTouchesOneRow(c, w.t, msg, h.phase, w.clock);
    WorkOnRow(c, w, i, msg.handle);
    var rows := AfterWork(c, w, i).t.rows;
    assert rows == w.t.rows[msg.handle := rows[msg.handle]];
    BacklogUpdate(c, w.t.rows, msg.handle, rows[msg.handle]);
  }

  // ---------------------------------------------------------------- locks that crashes left behind

  /** Every locked row is in a worker's hand, but for the rows in `stuck`. */
  ghost predicate HeldBut(w: World, stuck: set<nat>)
  {
    forall r: nat :: r < |w.t.rows| && w.t.rows[r].status == Locked ==> r in stuck || !Unheld(w, r)
  }

  ghost predicate AllIdle(w: World)
  {
    forall a :: 0 <= a < |w.hands| ==> !Busy(w.hands[a])
  }

  lemma WorkKeepsLocksHeld(c: Deployment, w: World, i: nat, stuck: set<nat>)
    requires QueueInv(c, w) && HeldBut(w, stuck) && i < |w.hands| && Busy(w.hands[i])
    ensures HeldBut(AfterWork(c, w, i), stuck)
  {
    var v := AfterWork(c, w, i);
    var h := w.hands[i];
    assert InHand(w, i, h.pos) && HoldsRow(c, w.t.rows, h, h.pos);
    CommitTouchesOneRow(c, w.t, h.batch[h.pos], h.phase, w.clock);
    CommitProgresses(c, w.t, h.batch[h.pos], h.phase, w.clock);
    forall r: nat | r < |v.t.rows| && v.t.rows[r].status == Locked && r !in stuck ensures !Unheld(v, r) {
      assert w.t.rows[r].status == Locked;
      var a: nat, p: nat :| InHand(w, a, p) && w.hands[a].batch[p].handle == r;
      assert HoldsRow(c, w.t.rows, w.hands[a], p);
      assert InHand(v, a, p) && v.hands[a].batch[p].handle == r;
    }
  }

  lemma ReceiveKeepsLocksHeld(c: Deployment, w: World, i: nat, max: nat, timeout: int, stuck: set<nat>)
    requires HeldBut(w, stuck) && i < |w.hands| && !Busy(w.hands[i])
    ensures HeldBut(AfterReceive(c, w, i, max, timeout), stuck)
  {
    var v := AfterReceive(c, w, i, max, timeout);
    var ids := Selected(w.t.rows, c.queue, w.clock, max);
    forall r: nat | r < |v.t.rows| && v.t.rows[r].status == Locked && r !in stuck ensures !Unheld(v, r) {
      if r in ids {
        var p: nat :| p < |ids| && ids[p] == r;
        assert InHand(v, i, p) && v.hands[i].batch[p].handle == r;
      } else {
        var a: nat, p: nat :| InHand(w, a, p) && w.hands[a].batch[p].handle == r;
        assert InHand(v, a, p) && v.hands[a].batch[p].handle == r;
      }
    }
  }

  lemma {:induction false} DriveKeeps(c: Deployment, w: World, i: nat, stuck: set<nat>)
    requires QueueInv(c, w) && i < |w.hands|
    ensures var v := Drive(c, w, i);
            && QueueInv(c, v) && Backlog(c, v.t.rows) <= Backlog(c, w.t.rows)
            && (HeldBut(w, stuck) ==> HeldBut(v, stuck))
    decreases |w.hands[i].batch| - w.hands[i].pos, Rank(w.hands[i].phase)
  {
    if Busy(w.hands[i]) {
      RankDrops(c, w.t, w.hands[i].batch[w.hands[i].pos], w.hands[i].phase, w.clock);
      WorkingKeeps(c, w, i);
      WorkKeepsBacklog(c, w, i);
      if HeldBut(w, stuck) {
        WorkKeepsLocksHeld(c, w, i, stuck);
      }
      DriveKeeps(c, AfterWork(c, w, i), i, stuck);
    }
  }

  /** A poll that claims anything strictly lowers the number of deliveries still possible. */
  lemma PollSpendsBacklog(c: Deployment, w: World, i: nat, max: nat, timeout: int, stuck: set<nat>)
    requires QueueInv(c, w) && i < |w.hands| && !Busy(w.hands[i])
    ensures var v := Poll(c, w, i, max, timeout);
            && QueueInv(c, v) && |v.hands| == |w.hands| && !Busy(v.hands[i])
            && Backlog(c, v.t.rows) + |Batch(c, w.t, max, w.clock)| <= Backlog(c, w.t.rows)
            && (HeldBut(w, stuck) ==> HeldBut(v, stuck))
            && (forall a :: 0 <= a < |w.hands| && a != i ==> v.hands[a] == w.hands[a])
  {
    var u := AfterReceive(c, w, i, max, timeout);
    ReceivingKeeps(c, w, i, max, timeout);
    ReceiveSpendsBacklog(c, w, i, max, timeout);
    if HeldBut(w, stuck) {
      ReceiveKeepsLocksHeld(c, w, i, max, timeout, stuck);
    }
    DriveKeeps(c, u, i, stuck);
    DriveFrame(c, u, i);
  }

  // ---------------------------------------------------------------- draining

  function Later(w: World, d: nat): World
  {
    w.(clock := w.clock + d)
  }

  /** One poll, d time units later. */
  function Polled(c: Deployment, w: World, i: nat, max: nat, timeout: int, d: nat): World
    requires i < |w.hands| && !Busy(w.hands[i])
  {
    Poll(c, Later(w, d), i, max, timeout)
  }

  /** A poll that claims anything strictly lowers the number of deliveries still possible. */
  lemma PolledSpends(c: Deployment, w: World, i: nat, max: nat, timeout: int, d: nat, stuck: set<nat>)
    requires QueueInv(c, w) && i < |w.hands| && !Busy(w.hands[i])
    ensures var v := Polled(c, w, i, max, timeout, d);
            && QueueInv(c, v) && |v.hands| == |w.hands| && !Busy(v.hands[i]) && (AllIdle(w) ==> AllIdle(v))
            && Backlog(c, v.t.rows) + |Batch(c, w.t, max, w.clock + d)| <= Backlog(c, w.t.rows)
            && (HeldBut(w, stuck) ==> HeldBut(v, stuck))
  {
    hide QueueInv; hide Poll; hide HeldBut;
    LaterKeeps(c, w, d, stuck);
    PollSpendsBacklog(c, Later(w, d), i, max, timeout, stuck);
  }

  lemma LaterKeeps(c: Deployment, w: World, d: nat, stuck: set<nat>)
    requires QueueInv(c, w)
    ensures QueueInv(c, Later(w, d)) && (HeldBut(w, stuck) ==> HeldBut(Later(w, d), stuck))
  {
    var u := Later(w, d);
    StepKeepsQueue(c, w, Tick(d));
    assert u == Apply(c, w, Tick(d));
    if HeldBut(w, stuck) {
      forall r: nat | r < |u.t.rows| && u.t.rows[r].status == Locked && r !in stuck ensures !Unheld(u, r) {
        var a: nat, p: nat :| InHand(w, a, p) && w.hands[a].batch[p].handle == r;
        assert InHand(u, a, p) && u.hands[a].batch[p].handle == r;
      }
    }
  }

  /** Polls, d time units apart, until a poll returns 0. That this is a function is the proof that it ends. */
  ghost function Drain(c: Deployment, w: World, i: nat, max: nat, timeout: int, d: nat): World
    requires QueueInv(c, w) && i < |w.hands| && !Busy(w.hands[i])
    decreases Backlog(c, w.t.rows)
  {
    PolledSpends(c, w, i, max, timeout, d, {});
    var v := Polled(c, w, i, max, timeout, d);
    if |Batch(c, w.t, max, w.clock + d)| == 0 then v else Drain(c, v, i, max, timeout, d)
  }

  lemma PolledIsRun(c: Deployment, w: World, i: nat, max: nat, timeout: int, d: nat) returns (steps: seq<Step>)
    requires i < |w.hands| && !Busy(w.hands[i])
    ensures Run(c, w, steps) == Polled(c, w, i, max, timeout, d) && Undisturbed(steps)
  {
    assert Apply(c, w, Tick(d)) == Later(w, d);
    hide Apply; hide Poll; hide Later;
    var poll := PollIsRun(c, Later(w, d), i, max, timeout);
    steps := [Tick(d)] + poll;
    assert steps[0] == Tick(d) && steps[1..] == poll;
  }

  lemma {:induction false} DrainIsRun(c: Deployment, w: World, i: nat, max: nat, timeout: int, d: nat)
    returns (steps: seq<Step>)
    requires QueueInv(c, w) && i < |w.hands| && !Busy(w.hands[i])
    ensures Run(c, w, steps) == Drain(c, w, i, max, timeout, d) && Undisturbed(steps)
    decreases Backlog(c, w.t.rows)
  {
    hide QueueInv; hide Polled; hide Batch;
    PolledSpends(c, w, i, max, timeout, d, {});
    steps := PolledIsRun(c, w, i, max, timeout, d);
    if |Batch(c, w.t, max, w.clock + d)| != 0 {
      var rest := DrainIsRun(c, Polled(c, w, i, max, timeout, d), i, max, timeout, d);
      RunConcat(c, w, steps, rest);
      steps := steps + rest;
    }
  }

  lemma EmptyBatchMeansNoneAvailable(c: Deployment, w: World, max: nat)
    requires QueueInv(c, w) && max >= 1 && |Batch(c, w.t, max, w.clock)| == 0
    ensures forall r :: 0 <= r < |w.t.rows| && w.t.rows[r].queue == c.queue ==> w.t.rows[r].status != Available
  {
    SelectedExact(w.t.rows, c.queue, w.clock, max);
    forall r | 0 <= r < |w.t.rows| && w.t.rows[r].queue == c.queue ensures w.t.rows[r].status != Available {
      assert RowOk(c, w.t.rows[r], w.clock);
      assert r !in Selected(w.t.rows, c.queue, w.clock, max);
    }
  }

  lemma IdleMeansStuck(w: World, stuck: set<nat>)
    requires HeldBut(w, stuck) && AllIdle(w)
    ensures forall r :: 0 <= r < |w.t.rows| && w.t.rows[r].status == Locked ==> r in stuck
  {
    forall r: nat | r < |w.t.rows| && w.t.rows[r].status == Locked ensures r in stuck {
      assert Unheld(w, r);
    }
  }

  /** A poll that returns 0 has found no row of the queue open but the stuck ones. */
  lemma LastPoll(c: Deployment, w: World, i: nat, max: nat, timeout: int, d: nat, stuck: set<nat>)
    requires QueueInv(c, w) && HeldBut(w, stuck) && i < |w.hands| && max >= 1 && AllIdle(w)
    requires |Batch(c, w.t, max, w.clock + d)| == 0
    ensures var v := Polled(c, w, i, max, timeout, d);
            forall r :: 0 <= r < |v.t.rows| && v.t.rows[r].queue == c.queue ==> Terminal(v.t.rows[r]) || r in stuck
  {
    StepKeepsQueue(c, w, Tick(d));
    assert Later(w, d) == Apply(c, w, Tick(d));
    IdleMeansStuck(w, stuck);
    EmptyBatchMeansNoneAvailable(c, Later(w, d), max);
    EmptyPollChangesNothing(c, Later(w, d), i, max, timeout);
  }

  lemma {:induction false} DrainSettlesBut(c: Deployment, w: World, i: nat, max: nat, timeout: int, d: nat,
                                           stuck: set<nat>)
    requires QueueInv(c, w) && HeldBut(w, stuck) && i < |w.hands| && max >= 1 && AllIdle(w)
    ensures var v := Drain(c, w, i, max, timeout, d);
            forall r :: 0 <= r < |v.t.rows| && v.t.rows[r].queue == c.queue ==> Terminal(v.t.rows[r]) || r in stuck
    decreases Backlog(c, w.t.rows)
  {
    hide QueueInv; hide Polled; hide Batch; hide HeldBut;
    PolledSpends(c, w, i, max, timeout, d, stuck);
    if |Batch(c, w.t, max, w.clock + d)| == 0 {
      LastPoll(c, w, i, max, timeout, d, stuck);
    } else {
      var v := Polled(c, w, i, max, timeout, d);
      DrainSettlesBut(c, v, i, max, timeout, d, stuck);
      assert Drain(c, w, i, max, timeout, d) == Drain(c, v, i, max, timeout, d);
    }
  }

  /** Between polls a locked row is one that a crash has stranded. */
  function Stranded(rows: seq<Row>): set<nat>
  {
    set r: nat | r < |rows| && rows[r].status == Locked
  }

  lemma IdleIsUnheld(w: World, r: nat)
    requires AllIdle(w)
    ensures Unheld(w, r)
  {
  }

  /**
   * After the drain every row of the queue is completed or dead-lettered, whatever the messages were, but for the rows
   * that crashes had stranded before: those are as they were.
   */
  lemma DrainSettlesAll(c: Deployment, w: World, i: nat, max: nat, timeout: int, d: nat)
    requires QueueInv(c, w) && i < |w.hands| && max >= 1 && AllIdle(w)
    ensures var v := Drain(c, w, i, max, timeout, d);
            && |v.t.rows| == |w.t.rows|
            && forall r :: 0 <= r < |v.t.rows| && v.t.rows[r].queue == c.queue ==>
                 if r in Stranded(w.t.rows) then v.t.rows[r] == w.t.rows[r] else Terminal(v.t.rows[r])
  {
    var steps := DrainIsRun(c, w, i, max, timeout, d);
    UndisturbedKeepsRecords(c, w, steps);
    DrainSettlesBut(c, w, i, max, timeout, d, Stranded(w.t.rows));
    hide QueueInv; hide Drain; hide Run; hide Unheld;
    forall r: nat | r < |w.t.rows| && r in Stranded(w.t.rows)
      ensures r < |Run(c, w, steps).t.rows| && Run(c, w, steps).t.rows[r] == w.t.rows[r]
    {
      IdleIsUnheld(w, r);
      RunOnRow(c, w, steps, r);
    }
  }

  lemma EmptyPollChangesNothing(c: Deployment, w: World, i: nat, max: nat, timeout: int)
    requires i < |w.hands| && !Busy(w.hands[i]) && |Batch(c, w.t, max, w.clock)| == 0
    ensures Poll(c, w, i, max, timeout).t.rows == w.t.rows
  {
    PollIsPollOnce(c, w, i, max, timeout);
    assert Selected(w.t.rows, c.queue, w.clock, max) == [];
  }

  // ---------------------------------------------------------------- the drained job table

  lemma {:induction false} UndisturbedKeepsRecords(c: Deployment, w: World, steps: seq<Step>)
    requires Undisturbed(steps)
    ensures SameRecords(w.t, Run(c, w, steps).t) && |Run(c, w, steps).t.rows| == |w.t.rows|
    decreases |steps|
  {
    if steps != [] {
      StepKeepsRecords(c, w, steps[0]);
      var v := Apply(c, w, steps[0]);
      if steps[0].Work? && steps[0].worker < |w.hands| && Busy(w.hands[steps[0].worker]) {
        var h := w.hands[steps[0].worker];
        CommitKeepsLength(c, w.t, h.batch[h.pos], h.phase, w.clock);
      }
      UndisturbedKeepsRecords(c, v, steps[1..]);
    }
  }

  lemma CommitKeepsLength(c: Deployment, t: Db, msg: Message, phase: Phase, now: int)
    ensures |Commit(c, t, msg, phase, now).db.rows| == |t.rows|
  {
  }

  /**
   * The world after a gateway-only schedule, crashes included, between polls and with every submission committed. The
   * queue invariant holds there (QueueInvariant); it is named because draining is defined under it.
   */
  ghost predicate Drainable(c: Deployment, workers: nat, before: seq<Step>, w: World, i: nat)
  {
    && GatewayOnly(c, Init(workers), before) && w == Run(c, Init(workers), before) && w.open == map[]
    && QueueInv(c, w) && AllIdle(w) && i < |w.hands|
  }

  lemma StepKeepsLocksHeld(c: Deployment, w: World, s: Step, stuck: set<nat>)
    requires QueueInv(c, w) && HeldBut(w, stuck) && !s.Crash?
    ensures HeldBut(Apply(c, w, s), stuck) && |Apply(c, w, s).hands| == |w.hands|
  {
    hide QueueInv;
    if s.Receive? {
      if s.worker < |w.hands| && !Busy(w.hands[s.worker]) {
        ReceiveKeepsLocksHeld(c, w, s.worker, s.max, s.timeout, stuck);
      }
    } else if s.Work? {
      if s.worker < |w.hands| && Busy(w.hands[s.worker]) {
        WorkKeepsLocksHeld(c, w, s.worker, stuck);
      }
    } else {
      var v := Apply(c, w, s);
      OutsideStepsAppend(c, w, s);
      forall r: nat | r < |v.t.rows| && v.t.rows[r].status == Locked && r !in stuck ensures !Unheld(v, r) {
        assert r < |w.t.rows| && v.t.rows[r] == v.t.rows[..|w.t.rows|][r];
        var a: nat, p: nat :| InHand(w, a, p) && w.hands[a].batch[p].handle == r;
        assert InHand(v, a, p) && v.hands[a].batch[p].handle == r;
      }
    }
  }

  lemma {:induction false} RunKeepsLocksHeld(c: Deployment, w: World, steps: seq<Step>, stuck: set<nat>)
    requires QueueInv(c, w) && HeldBut(w, stuck)
    requires forall k :: 0 <= k < |steps| ==> !steps[k].Crash?
    ensures HeldBut(Run(c, w, steps), stuck) && |Run(c, w, steps).hands| == |w.hands|
    decreases |steps|
  {
    hide QueueInv; hide HeldBut;
    if steps != [] {
      StepKeepsQueue(c, w, steps[0]);
      StepKeepsLocksHeld(c, w, steps[0], stuck);
      RunKeepsLocksHeld(c, Apply(c, w, steps[0]), steps[1..], stuck);
    }
  }

  lemma {:induction false} HandsStay(c: Deployment, w: World, steps: seq<Step>)
    ensures |Run(c, w, steps).hands| == |w.hands|
    decreases |steps|
  {
    if steps != [] {
      HandsStay(c, Apply(c, w, steps[0]), steps[1..]);
    }
  }

  /** Every gateway-only schedule that leaves the workers idle and no submission open can be drained by any worker. */
  lemma IdleIsDrainable(c: Deployment, workers: nat, before: seq<Step>, i: nat)
    requires GatewayOnly(c, Init(workers), before) && Run(c, Init(workers), before).open == map[]
    requires AllIdle(Run(c, Init(workers), before)) && i < workers
    ensures Drainable(c, workers, before, Run(c, Init(workers), before), i)
  {
    QueueInvariant(c, workers, before);
    HandsStay(c, Init(workers), before);
  }

  /** Without crashes nothing is stranded. */
  lemma CrashFreeStrandsNothing(c: Deployment, workers: nat, before: seq<Step>)
    requires forall k :: 0 <= k < |before| ==> !before[k].Crash?
    requires AllIdle(Run(c, Init(workers), before))
    ensures Stranded(Run(c, Init(workers), before).t.rows) == {}
  {
    QueueInvariant(c, workers, []);
    RunKeepsLocksHeld(c, Init(workers), before, {});
    IdleMeansStuck(Run(c, Init(workers), before), {});
  }

  lemma {:induction false} UndisturbedIsGatewayOnly(c: Deployment, w: World, steps: seq<Step>)
    requires Undisturbed(steps) && w.open == map[]
    ensures GatewayOnly(c, w, steps)
    decreases |steps|
  {
    if steps != [] {
      NothingOpens(c, w, steps[0]);
      UndisturbedIsGatewayOnly(c, Apply(c, w, steps[0]), steps[1..]);
    }
  }

  lemma DrainIsGatewayOnly(c: Deployment, workers: nat, before: seq<Step>, w: World, i: nat, steps: seq<Step>)
    requires Drainable(c, workers, before, w, i) && Undisturbed(steps)
    ensures GatewayOnly(c, Init(workers), before + steps) && Run(c, Init(workers), before + steps) == Run(c, w, steps)
  {
    UndisturbedIsGatewayOnly(c, w, steps);
    GatewayOnlyConcat(c, Init(workers), before, steps);
    RunConcat(c, Init(workers), before, steps);
  }

  /** Draining turns every job whose row no crash has stranded into the verdict of trying its row up to M' times. */
  lemma DrainedJob(c: Deployment, workers: nat, before: seq<Step>, w: World, i: nat, max: nat, timeout: int, d: nat,
                   j: string, r: nat)
    requires Drainable(c, workers, before, w, i) && max >= 1
    requires j in w.t.jobs && r < |w.t.rows| && w.t.rows[r].body.jobId == Some(j) && r !in Stranded(w.t.rows)
    ensures var v := Drain(c, w, i, max, timeout, d);
            j in v.t.jobs && v.t.jobs[j] == TryFrom(c, r, Pristine(w.t.jobs[j]), 1)
  {
    hide Run; hide Drain; hide TryFrom; hide QueueInv;
    var steps := DrainIsRun(c, w, i, max, timeout, d);
    DrainIsGatewayOnly(c, workers, before, w, i, steps);
    DrainSettlesAll(c, w, i, max, timeout, d);
    RunOnRow(c, w, steps, r);
    RowIsOfQueue(c, workers, before, r);
    RetryRefinement(c, workers, before, steps, j, r);
  }

  lemma RowIsOfQueue(c: Deployment, workers: nat, before: seq<Step>, r: nat)
    requires GatewayOnly(c, Init(workers), before) && r < |Run(c, Init(workers), before).t.rows|
    ensures Run(c, Init(workers), before).t.rows[r].queue == c.queue
  {
    DeliveryInvariant(c, workers, before);
  }

  /** The job of a stranded row stays as the crash left it. */
  lemma {:induction false} StrandedJobStays(c: Deployment, w: World, steps: seq<Step>, j: string, r: nat)
    requires DeliveryInv(c, w) && Undisturbed(steps) && w.open == map[]
    requires r < |w.t.rows| && w.t.rows[r].status == Locked && Unheld(w, r)
    requires w.t.rows[r].body.jobId == Some(j) && j in w.t.jobs
    ensures j in Run(c, w, steps).t.jobs && Run(c, w, steps).t.jobs[j] == w.t.jobs[j]
    decreases |steps|
  {
    if steps != [] {
      hide DeliveryInv; hide Unheld;
      NothingOpens(c, w, steps[0]);
      StrandedJobStep(c, w, steps[0], j, r);
      StrandedJobStays(c, Apply(c, w, steps[0]), steps[1..], j, r);
    }
  }

  lemma StrandedJobStep(c: Deployment, w: World, s: Step, j: string, r: nat)
    requires DeliveryInv(c, w) && (s.Tick? || s.Receive? || s.Work?) && w.open == map[]
    requires r < |w.t.rows| && w.t.rows[r].status == Locked && Unheld(w, r)
    requires w.t.rows[r].body.jobId == Some(j) && j in w.t.jobs
    ensures var v := Apply(c, w, s);
            && DeliveryInv(c, v) && j in v.t.jobs && v.t.jobs[j] == w.t.jobs[j]
            && r < |v.t.rows| && v.t.rows[r] == w.t.rows[r] && Unheld(v, r)
  {
    hide DeliveryInv; hide QueueInv; hide Commit; hide Unheld; hide Received;
    StepKeepsDelivery(c, w, s);
    DeliveryHasQueue(c, w);
    StepOnRow(c, w, s, r);
    if s.Work? && s.worker < |w.hands| && Busy(w.hands[s.worker]) {
      OtherJobStays(c, w, s.worker, j, r);
    } else if s.Receive? {
      ReceiveKeepsJobs(c, w, s);
    }
  }

  lemma DeliveryHasQueue(c: Deployment, w: World)
    requires DeliveryInv(c, w)
    ensures QueueInv(c, w)
  {
  }

  lemma ReceiveKeepsJobs(c: Deployment, w: World, s: Step)
    requires s.Receive?
    ensures Apply(c, w, s).t.jobs == w.t.jobs
  {
  }

  lemma OtherJobStays(c: Deployment, w: World, a: nat, j: string, r: nat)
    requires DeliveryInv(c, w) && a < |w.hands| && Busy(w.hands[a])
    requires r < |w.t.rows| && Unheld(w, r) && w.t.rows[r].body.jobId == Some(j) && j in w.t.jobs
    ensures j in AfterWork(c, w, a).t.jobs && AfterWork(c, w, a).t.jobs[j] == w.t.jobs[j]
  {
    var h := w.hands[a];
    assert InHand(w, a, h.pos) && HoldsRow(c, w.t.rows, h, h.pos);
    DistinctRows(c, w.t, r, h.batch[h.pos].handle);
    JobsFrame(c, w.t, h.batch[h.pos], h.phase, w.clock);
    hide Commit;
  }

  lemma DrainedStrandedJob(c: Deployment, workers: nat, before: seq<Step>, w: World, i: nat, max: nat, timeout: int,
                           d: nat,
                           j: string, r: nat)
    requires Drainable(c, workers, before, w, i)
    requires j in w.t.jobs && r < |w.t.rows| && w.t.rows[r].body.jobId == Some(j) && r in Stranded(w.t.rows)
    ensures var v := Drain(c, w, i, max, timeout, d);
            j in v.t.jobs && v.t.jobs[j] == w.t.jobs[j]
  {
    hide Drain; hide Run;
    var steps := DrainIsRun(c, w, i, max, timeout, d);
    DeliveryInvariant(c, workers, before);
    IdleIsUnheld(w, r);
    StrandedJobStays(c, w, steps, j, r);
  }

  /** The drained job table depends on no batch size, no visibility timeout and no polling interval. */
  lemma BatchSizeDoesNotMatter(c: Deployment, workers: nat, before: seq<Step>, w: World, i: nat,
                               m1: nat, timeout1: int, d1: nat, m2: nat, timeout2: int, d2: nat)
    requires Drainable(c, workers, before, w, i) && m1 >= 1 && m2 >= 1
    ensures Drain(c, w, i, m1, timeout1, d1).t.jobs == Drain(c, w, i, m2, timeout2, d2).t.jobs
  {
    hide Drain; hide QueueInv; hide Drainable;
    DrainableMeans(c, workers, before, w, i);
    DrainKeepsJobs(c, w, i, m1, timeout1, d1);
    DrainKeepsJobs(c, w, i, m2, timeout2, d2);
    forall j | j in w.t.jobs
      ensures Drain(c, w, i, m1, timeout1, d1).t.jobs[j] == Drain(c, w, i, m2, timeout2, d2).t.jobs[j]
    {
      var r := RowOfDrainable(c, workers, before, w, i, j);
      DrainedAlike(c, workers, before, w, i, m1, timeout1, d1, j, r);
      DrainedAlike(c, workers, before, w, i, m2, timeout2, d2, j, r);
    }
  }

  lemma DrainableMeans(c: Deployment, workers: nat, before: seq<Step>, w: World, i: nat)
    requires Drainable(c, workers, before, w, i)
    ensures QueueInv(c, w) && i < |w.hands| && !Busy(w.hands[i])
  {
  }

  lemma RowOfDrainable(c: Deployment, workers: nat, before: seq<Step>, w: World, i: nat, j: string) returns (r: nat)
    requires Drainable(c, workers, before, w, i) && j in w.t.jobs
    ensures r < |w.t.rows| && w.t.rows[r].body.jobId == Some(j)
  {
    hide QueueInv; hide GatewayOnly; hide Run;
    r := RowOfJob(c, workers, before, j);
  }

  /** What draining makes of a job, whatever its parameters are. */
  function Drained(c: Deployment, w: World, j: string, r: nat): Job
    requires j in w.t.jobs
  {
    if r in Stranded(w.t.rows) then w.t.jobs[j] else TryFrom(c, r, Pristine(w.t.jobs[j]), 1)
  }

  lemma DrainedAlike(c: Deployment, workers: nat, before: seq<Step>, w: World, i: nat, max: nat, timeout: int, d: nat,
                     j: string, r: nat)
    requires Drainable(c, workers, before, w, i) && max >= 1 && QueueInv(c, w) && i < |w.hands| && !Busy(w.hands[i])
    requires j in w.t.jobs && r < |w.t.rows| && w.t.rows[r].body.jobId == Some(j)
    ensures var v := Drain(c, w, i, max, timeout, d);
            j in v.t.jobs && v.t.jobs[j] == Drained(c, w, j, r)
  {
    hide Drain; hide QueueInv; hide Drainable; hide TryFrom;
    if r in Stranded(w.t.rows) {
      DrainedStrandedJob(c, workers, before, w, i, max, timeout, d, j, r);
    } else {
      DrainedJob(c, workers, before, w, i, max, timeout, d, j, r);
    }
  }

  lemma DrainKeepsJobs(c: Deployment, w: World, i: nat, max: nat, timeout: int, d: nat)
    requires QueueInv(c, w) && i < |w.hands| && !Busy(w.hands[i])
    ensures Drain(c, w, i, max, timeout, d).t.jobs.Keys == w.t.jobs.Keys
  {
    var steps := DrainIsRun(c, w, i, max, timeout, d);
    UndisturbedKeepsRecords(c, w, steps);
  }

  // ---------------------------------------------------------------- several workers

  /** The commits that a hand can still need. */
  function HandWork(h: Hand): nat
  {
    if !Busy(h) then 0 else Rank(h.phase) + 5 * (|h.batch| - h.pos - 1)
  }

  function HandsWork(hands: seq<Hand>): nat
  {
    if hands == [] then 0 else HandsWork(hands[..|hands| - 1]) + HandWork(hands[|hands| - 1])
  }

  /** What crash-free workers can still do when nothing more is published. */
  function Potential(c: Deployment, w: World): nat
  {
    6 * Backlog(c, w.t.rows) + HandsWork(w.hands)
  }

  /** The step claims something or commits something. */
  predicate DoesSomething(c: Deployment, w: World, s: Step)
  {
    || (s.Work? && s.worker < |w.hands| && Busy(w.hands[s.worker]))
    || (s.Receive? && s.worker < |w.hands| && !Busy(w.hands[s.worker]) && Batch(c, w.t, s.max, w.clock) != [])
  }

  function Doings(c: Deployment, w: World, steps: seq<Step>): nat
    decreases |steps|
  {
    if steps == [] then 0
    else (if DoesSomething(c, w, steps[0]) then 1 else 0) + Doings(c, Apply(c, w, steps[0]), steps[1..])
  }

  lemma {:induction false} HandsWorkUpdate(hands: seq<Hand>, i: nat, hand: Hand)
    requires i < |hands|
    ensures HandsWork(hands[i := hand]) == HandsWork(hands) - HandWork(hands[i]) + HandWork(hand)
    decreases |hands|
  {
    var n := |hands| - 1;
    if i < n {
      assert hands[i := hand][..n] == hands[..n][i := hand];
      HandsWorkUpdate(hands[..n], i, hand);
    } else {
      assert hands[i := hand][..n] == hands[..n];
    }
  }

  lemma RankIsAtMostGuard(phase: Phase)
    ensures 1 <= Rank(phase) <= 5
  {
  }

  lemma WorkSpends(c: Deployment, w: World, i: nat)
    requires QueueInv(c, w) && i < |w.hands| && Busy(w.hands[i])
    ensures Potential(c, AfterWork(c, w, i)) < Potential(c, w)
  {
    var h := w.hands[i];
    RankDrops(c, w.t, h.batch[h.pos], h.phase, w.clock);
    RankIsAtMostGuard(h.phase);
    WorkKeepsBacklog(c, w, i);
    hide QueueInv; hide Commit; hide Backlog; hide Rank;
    assert Rank(Guard) == 5 by {
      GuardRank();
    }
    HandsWorkUpdate(w.hands, i, Advanced(h, Commit(c, w.t, h.batch[h.pos], h.phase, w.clock).next));
  }

  lemma GuardRank()
    ensures Rank(Guard) == 5
  {
  }

  lemma ReceiveSpends(c: Deployment, w: World, i: nat, max: nat, timeout: int)
    requires QueueInv(c, w) && i < |w.hands| && !Busy(w.hands[i])
    ensures Potential(c, AfterReceive(c, w, i, max, timeout)) + |Batch(c, w.t, max, w.clock)| <= Potential(c, w)
  {
    ReceiveSpendsBacklog(c, w, i, max, timeout);
    hide QueueInv; hide Backlog; hide Batch; hide Received;
    GuardRank();
    HandsWorkUpdate(w.hands, i, Hand(Batch(c, w.t, max, w.clock), 0, Guard));
  }

  lemma StepSpends(c: Deployment, w: World, s: Step)
    requires QueueInv(c, w) && (s.Tick? || s.Receive? || s.Work?)
    ensures Potential(c, Apply(c, w, s)) + (if DoesSomething(c, w, s) then 1 else 0) <= Potential(c, w)
  {
    hide QueueInv; hide AfterWork; hide AfterReceive; hide Batch;
    if s.Work? && s.worker < |w.hands| && Busy(w.hands[s.worker]) {
      WorkSpends(c, w, s.worker);
    } else if s.Receive? && s.worker < |w.hands| && !Busy(w.hands[s.worker]) {
      ReceiveSpends(c, w, s.worker, s.max, s.timeout);
    }
  }

  /**
   * Any interleaving of any number of workers comes to rest: without crashes and new messages, at most `Potential`
   * steps of any schedule do something, whatever the batch sizes and whoever does them.
   */
  lemma {:induction false} InterleavingsTerminate(c: Deployment, w: World, steps: seq<Step>)
    requires QueueInv(c, w) && Undisturbed(steps)
    ensures Doings(c, w, steps) <= Potential(c, w)
    decreases |steps|
  {
    if steps != [] {
      hide QueueInv; hide Potential;
      StepSpends(c, w, steps[0]);
      StepKeepsQueue(c, w, steps[0]);
      InterleavingsTerminate(c, Apply(c, w, steps[0]), steps[1..]);
    }
  }

  /** At rest, that is when workers are idle and a claim finds nothing, every row is settled or locked by a crash. */
  lemma AtRestAllIsSettled(c: Deployment, w: World, max: nat)
    requires QueueInv(c, w) && AllIdle(w) && max >= 1 && Batch(c, w.t, max, w.clock) == []
    ensures forall r :: 0 <= r < |w.t.rows| && w.t.rows[r].queue == c.queue ==>
              Terminal(w.t.rows[r]) || r in Stranded(w.t.rows)
  {
    EmptyBatchMeansNoneAvailable(c, w, max);
  }
}
