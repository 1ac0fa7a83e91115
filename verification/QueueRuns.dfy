/** What every run keeps about the queue, whoever publishes and whatever crashes. */
module QueueRuns {
  import opened Tables
  import opened Catalog
  import opened LocalQueue
  import opened Gateway
  import opened Worker
  import opened Protocol

  // ---------------------------------------------------------------- the invariant

  predicate RowOk(c: Deployment, row: Row, clock: int)
  {
    && row.deliveries <= Bound(c)
    && (row.status == Available ==> row.deliveries < Bound(c) && row.visibleAt <= clock)
    && (row.status != Available ==> row.deliveries >= 1)
  }

  /** The message at `p` of worker `a`'s batch is still in its hand. */
  predicate InHand(w: World, a: nat, p: nat)
  {
    a < |w.hands| && w.hands[a].pos <= p < |w.hands[a].batch|
  }

  /** A message in hand is the current delivery of a locked row; only a noted duplicate is completed early. */
  predicate HoldsRow(c: Deployment, rows: seq<Row>, h: Hand, p: nat)
    requires p < |h.batch|
  {
    var m := h.batch[p];
    && m.handle < |rows|
    && rows[m.handle].body == m.body && rows[m.handle].deliveries == m.deliveries && rows[m.handle].queue == c.queue
    && rows[m.handle].status == (if p == h.pos && h.phase.NoteDuplicate? then Completed else Locked)
  }

  ghost predicate Exclusive(w: World)
  {
    forall a: nat, p: nat, b: nat, q: nat ::
      (InHand(w, a, p) && InHand(w, b, q) && w.hands[a].batch[p].handle == w.hands[b].batch[q].handle)
      ==> a == b && p == q
  }

  /** First deliveries happen in id order within a queue. */
  ghost predicate InOrder(rows: seq<Row>)
  {
    forall i, j :: 0 <= i < j < |rows| && rows[i].queue == rows[j].queue && rows[j].deliveries > 0 ==>
      rows[i].deliveries > 0
  }

  ghost predicate QueueInv(c: Deployment, w: World)
  {
    && (forall i :: 0 <= i < |w.t.rows| ==> RowOk(c, w.t.rows[i], w.clock))
    && (forall a: nat, p: nat :: InHand(w, a, p) ==> HoldsRow(c, w.t.rows, w.hands[a], p))
    && Exclusive(w)
    && InOrder(w.t.rows)
  }

  /** `after` has the rows of `before`, then new undelivered ones. */
  ghost predicate OnlyAppends(before: seq<Row>, after: seq<Row>, clock: int)
  {
    && |before| <= |after| && after[..|before|] == before
    && forall i :: |before| <= i < |after| ==>
         after[i].status == Available && after[i].deliveries == 0 && after[i].visibleAt <= clock
  }

  // ---------------------------------------------------------------- one step

  lemma AppendingKeeps(c: Deployment, w: World, v: World)
    requires QueueInv(c, w)
    requires OnlyAppends(w.t.rows, v.t.rows, v.clock) && v.hands == w.hands && w.clock <= v.clock
    ensures QueueInv(c, v)
  {
    forall i | 0 <= i < |w.t.rows| ensures v.t.rows[i] == w.t.rows[i] {
      assert v.t.rows[i] == v.t.rows[..|w.t.rows|][i];
    }
    forall i | 0 <= i < |v.t.rows| ensures RowOk(c, v.t.rows[i], v.clock) {
      if i < |w.t.rows| {
        assert RowOk(c, w.t.rows[i], w.clock);
      }
    }
    forall a: nat, p: nat | InHand(v, a, p) ensures HoldsRow(c, v.t.rows, v.hands[a], p) {
      assert InHand(w, a, p);
    }
    forall a: nat, p: nat, b: nat, q: nat | InHand(v, a, p) && InHand(v, b, q)
      && v.hands[a].batch[p].handle == v.hands[b].batch[q].handle
      ensures a == b && p == q
    {
      assert InHand(w, a, p) && InHand(w, b, q);
    }
  }

  lemma ReceivingKeeps(c: Deployment, w: World, i: nat, max: nat, timeout: int)
    requires QueueInv(c, w) && i < |w.hands| && !Busy(w.hands[i])
    ensures QueueInv(c, AfterReceive(c, w, i, max, timeout))
  {
    var v := AfterReceive(c, w, i, max, timeout);
    var rows := w.t.rows;
    var ids := Selected(rows, c.queue, w.clock, max);
    SelectedExact(rows, c.queue, w.clock, max);
    forall k | 0 <= k < |rows| ensures RowOk(c, v.t.rows[k], w.clock) {
      assert RowOk(c, rows[k], w.clock);
    }
    forall a: nat, p: nat | InHand(v, a, p)
      ensures HoldsRow(c, v.t.rows, v.hands[a], p)
      ensures a != i ==> InHand(w, a, p) && w.hands[a].batch[p].handle !in ids
    {
      if a != i {
        assert InHand(w, a, p);
        assert HoldsRow(c, rows, w.hands[a], p);
      } else {
        assert v.hands[i].batch[p].handle == ids[p];
        assert ids[p] in ids;
      }
    }
    forall a: nat, p: nat, b: nat, q: nat | InHand(v, a, p) && InHand(v, b, q)
      && v.hands[a].batch[p].handle == v.hands[b].batch[q].handle
      ensures a == b && p == q
    {
      if a == i {
        assert v.hands[i].batch[p].handle == ids[p] && ids[p] in ids;
      }
      if b == i {
        assert v.hands[i].batch[q].handle == ids[q] && ids[q] in ids;
      }
    }
    ClaimKeepsOrder(c, rows, w.clock, timeout, max);
  }

  lemma ClaimKeepsOrder(c: Deployment, rows: seq<Row>, now: int, timeout: int, max: nat)
    requires InOrder(rows) && forall i :: 0 <= i < |rows| ==> RowOk(c, rows[i], now)
    ensures InOrder(ClaimAll(rows, Selected(rows, c.queue, now, max), now, timeout))
  {
    var ids := Selected(rows, c.queue, now, max);
    var after := ClaimAll(rows, ids, now, timeout);
    SelectedExact(rows, c.queue, now, max);
    forall i, j | 0 <= i < j < |after| && after[i].queue == after[j].queue && after[j].deliveries > 0
      ensures after[i].deliveries > 0
    {
      assert RowOk(c, rows[i], now);
      if rows[j].deliveries == 0 && rows[i].deliveries == 0 {
        assert j in ids;
        assert IsReady(rows[i], c.queue, now);
        assert i in ids;
      }
    }
  }

  /** A commit of a worker touches no row but the one at hand, and that one only when it settles it. */
  lemma CommitTouchesOneRow(c: Deployment, t: Db, msg: Message, phase: Phase, now: int)
    requires msg.handle < |t.rows|
    ensures var rows := Commit(c, t, msg, phase, now).db.rows;
            && |rows| == |t.rows|
            && (forall k :: 0 <= k < |rows| && k != msg.handle ==> rows[k] == t.rows[k])
            && rows[msg.handle].body == t.rows[msg.handle].body && rows[msg.handle].queue == t.rows[msg.handle].queue
            && rows[msg.handle].deliveries == t.rows[msg.handle].deliveries
            && (rows[msg.handle] != t.rows[msg.handle] ==>
                  phase.Settle? || phase.SettleUnknown? || phase.SettleDuplicate?)
            && (rows[msg.handle].status == Available ==>
                  rows[msg.handle] == t.rows[msg.handle]
                  || (phase == Settle(false) && rows[msg.handle].visibleAt == now
                      && t.rows[msg.handle].deliveries < c.maxDelivery))
  {
  }

  lemma WorkingKeeps(c: Deployment, w: World, i: nat)
    requires QueueInv(c, w) && i < |w.hands| && Busy(w.hands[i])
    ensures QueueInv(c, AfterWork(c, w, i))
  {
    var v := AfterWork(c, w, i);
    var h := w.hands[i];
    var msg := h.batch[h.pos];
    assert InHand(w, i, h.pos);
    assert HoldsRow(c, w.t.rows, h, h.pos);
    CommitTouchesOneRow(c, w.t, msg, h.phase, w.clock);
    assert RowOk(c, w.t.rows[msg.handle], w.clock);
    forall k | 0 <= k < |v.t.rows| ensures RowOk(c, v.t.rows[k], v.clock) {
      assert RowOk(c, w.t.rows[k], w.clock);
    }
    forall a: nat, p: nat | InHand(v, a, p)
      ensures InHand(w, a, p) && v.hands[a].batch == w.hands[a].batch
      ensures HoldsRow(c, v.t.rows, v.hands[a], p)
    {
      assert InHand(w, a, p);
      assert HoldsRow(c, w.t.rows, w.hands[a], p);
    }
    forall a: nat, p: nat, b: nat, q: nat | InHand(v, a, p) && InHand(v, b, q)
      && v.hands[a].batch[p].handle == v.hands[b].batch[q].handle
      ensures a == b && p == q
    {
      assert InHand(w, a, p) && InHand(w, b, q);
    }
  }

  lemma CrashingKeeps(c: Deployment, w: World, i: nat)
    requires QueueInv(c, w) && i < |w.hands|
    ensures QueueInv(c, Apply(c, w, Crash(i)))
  {
    var v := Apply(c, w, Crash(i));
    forall a: nat, p: nat | InHand(v, a, p) ensures InHand(w, a, p) && a != i && HoldsRow(c, v.t.rows, v.hands[a], p) {
    }
    forall a: nat, p: nat, b: nat, q: nat | InHand(v, a, p) && InHand(v, b, q)
      && v.hands[a].batch[p].handle == v.hands[b].batch[q].handle
      ensures a == b && p == q
    {
      assert InHand(w, a, p) && InHand(w, b, q);
    }
  }

  /** The steps of gateway, approver, clock and outside publishers append rows and nothing else. */
  lemma OutsideStepsAppend(c: Deployment, w: World, s: Step)
    requires !s.Receive? && !s.Work? && !s.Crash?
    ensures var v := Apply(c, w, s);
            OnlyAppends(w.t.rows, v.t.rows, v.clock) && v.hands == w.hands && w.clock <= v.clock
  {
    hide Route; hide Invoke; hide Commit; hide Received; hide FreshIds;
    var v := Apply(c, w, s);
    assert w.t.rows[..|w.t.rows|] == w.t.rows;
    if s.Call? && FreshIn(w, s.f) {
      InvokeTables(c, w.t, s.req, s.f, s.res, w.clock);
    }
  }

  lemma StepKeepsQueue(c: Deployment, w: World, s: Step)
    requires QueueInv(c, w)
    ensures QueueInv(c, Apply(c, w, s))
  {
    match s
    case Receive(i, max, timeout) =>
      if i < |w.hands| && !Busy(w.hands[i]) {
        ReceivingKeeps(c, w, i, max, timeout);
      }
    case Work(i) =>
      if i < |w.hands| && Busy(w.hands[i]) {
        WorkingKeeps(c, w, i);
      }
    case Crash(i) =>
      if i < |w.hands| {
        CrashingKeeps(c, w, i);
      }
    case _ =>
      OutsideStepsAppend(c, w, s);
      AppendingKeeps(c, w, Apply(c, w, s));
  }

  lemma {:induction false} RunKeepsQueue(c: Deployment, w: World, steps: seq<Step>)
    requires QueueInv(c, w)
    ensures QueueInv(c, Run(c, w, steps))
    decreases |steps|
  {
    if steps != [] {
      StepKeepsQueue(c, w, steps[0]);
      RunKeepsQueue(c, Apply(c, w, steps[0]), steps[1..]);
    }
  }

  /** The queue invariant holds after every schedule. */
  lemma QueueInvariant(c: Deployment, workers: nat, steps: seq<Step>)
    ensures QueueInv(c, Run(c, Init(workers), steps))
  {
    RunKeepsQueue(c, Init(workers), steps);
  }

  // ---------------------------------------------------------------- rows over a run

  predicate Terminal(row: Row)
  {
    row.status == Completed || row.status == DeadLetter
  }

  /** No worker has a claimed message of row `h` left. */
  ghost predicate Unheld(w: World, h: nat)
  {
    forall a: nat, p: nat :: InHand(w, a, p) ==> w.hands[a].batch[p].handle != h
  }

  /**
   * A step keeps every row's body and queue, never lowers a count, and leaves settled and abandoned-by-crash
   * rows alone.
   */
  lemma StepOnRow(c: Deployment, w: World, s: Step, h: nat)
    requires QueueInv(c, w) && h < |w.t.rows|
    ensures var v := Apply(c, w, s);
            && h < |v.t.rows|
            && v.t.rows[h].body == w.t.rows[h].body && v.t.rows[h].queue == w.t.rows[h].queue
            && v.t.rows[h].deliveries >= w.t.rows[h].deliveries
            && (Terminal(w.t.rows[h]) ==> v.t.rows[h] == w.t.rows[h])
            && (w.t.rows[h].status != Available && Unheld(w, h) ==> v.t.rows[h] == w.t.rows[h] && Unheld(v, h))
  {
    hide QueueInv; hide AfterCall; hide AfterSubmit; hide AfterConclude;
    var v := Apply(c, w, s);
    match s
    case Receive(i, max, timeout) =>
      if i < |w.hands| && !Busy(w.hands[i]) {
        ReceiveOnRow(c, w, i, max, timeout, h);
      }
    case Work(i) =>
      if i < |w.hands| && Busy(w.hands[i]) {
        WorkOnRow(c, w, i, h);
      }
    case Crash(i) =>
      if w.t.rows[h].status != Available && Unheld(w, h) {
        forall a: nat, p: nat | InHand(v, a, p) ensures v.hands[a].batch[p].handle != h {
          assert InHand(w, a, p);
        }
      }
    case _ =>
      OutsideStepsAppend(c, w, s);
      assert v.t.rows[h] == v.t.rows[..|w.t.rows|][h];
      if Unheld(w, h) {
        forall a: nat, p: nat | InHand(v, a, p) ensures v.hands[a].batch[p].handle != h {
          assert InHand(w, a, p);
        }
      }
  }

  lemma ReceiveOnRow(c: Deployment, w: World, i: nat, max: nat, timeout: int, h: nat)
    requires QueueInv(c, w) && h < |w.t.rows| && i < |w.hands| && !Busy(w.hands[i])
    ensures var v := AfterReceive(c, w, i, max, timeout);
            && v.t.rows[h].body == w.t.rows[h].body && v.t.rows[h].queue == w.t.rows[h].queue
            && v.t.rows[h].deliveries >= w.t.rows[h].deliveries
            && (w.t.rows[h].status != Available ==> v.t.rows[h] == w.t.rows[h])
            && (w.t.rows[h].status != Available && Unheld(w, h) ==> Unheld(v, h))
  {
    var v := AfterReceive(c, w, i, max, timeout);
    var ids := Selected(w.t.rows, c.queue, w.clock, max);
    SelectedExact(w.t.rows, c.queue, w.clock, max);
    if w.t.rows[h].status != Available && Unheld(w, h) {
      forall a: nat, p: nat | InHand(v, a, p) ensures v.hands[a].batch[p].handle != h {
        if a == i {
          assert v.hands[i].batch[p].handle == ids[p] && ids[p] in ids;
        } else {
          assert InHand(w, a, p);
        }
      }
    }
  }

  lemma WorkOnRow(c: Deployment, w: World, i: nat, h: nat)
    requires QueueInv(c, w) && h < |w.t.rows| && i < |w.hands| && Busy(w.hands[i])
    ensures var v := AfterWork(c, w, i);
            && |v.t.rows| == |w.t.rows|
            && v.t.rows[h].body == w.t.rows[h].body && v.t.rows[h].queue == w.t.rows[h].queue
            && v.t.rows[h].deliveries == w.t.rows[h].deliveries
            && (Terminal(w.t.rows[h]) ==> v.t.rows[h] == w.t.rows[h])
            && (Unheld(w, h) ==> v.t.rows[h] == w.t.rows[h] && Unheld(v, h))
  {
    var v := AfterWork(c, w, i);
    var hand := w.hands[i];
    var msg := hand.batch[hand.pos];
    assert InHand(w, i, hand.pos) && HoldsRow(c, w.t.rows, hand, hand.pos);
    CommitTouchesOneRow(c, w.t, msg, hand.phase, w.clock);
    if Unheld(w, h) {
      forall a: nat, p: nat | InHand(v, a, p) ensures v.hands[a].batch[p].handle != h {
        assert InHand(w, a, p);
      }
    }
  }

  lemma {:induction false} RunOnRow(c: Deployment, w: World, steps: seq<Step>, h: nat)
    requires QueueInv(c, w) && h < |w.t.rows|
    ensures var v := Run(c, w, steps);
            && h < |v.t.rows|
            && v.t.rows[h].body == w.t.rows[h].body && v.t.rows[h].queue == w.t.rows[h].queue
            && v.t.rows[h].deliveries >= w.t.rows[h].deliveries
            && (Terminal(w.t.rows[h]) ==> v.t.rows[h] == w.t.rows[h])
            && (w.t.rows[h].status != Available && Unheld(w, h) ==> v.t.rows[h] == w.t.rows[h])
    decreases |steps|
  {
    if steps != [] {
      StepOnRow(c, w, steps[0], h);
      StepKeepsQueue(c, w, steps[0]);
      RunOnRow(c, Apply(c, w, steps[0]), steps[1..], h);
    }
  }

  /** Settled rows never change again, in any continuation of any run. */
  lemma SettledForever(c: Deployment, workers: nat, before: seq<Step>, after: seq<Step>, h: nat)
    requires h < |Run(c, Init(workers), before).t.rows| && Terminal(Run(c, Init(workers), before).t.rows[h])
    ensures h < |Run(c, Init(workers), before + after).t.rows|
    ensures Run(c, Init(workers), before + after).t.rows[h] == Run(c, Init(workers), before).t.rows[h]
  {
    QueueInvariant(c, workers, before);
    RunOnRow(c, Run(c, Init(workers), before), after, h);
    RunConcat(c, Init(workers), before, after);
  }

  /** One commit of the holder settles the row or brings the worker closer to settling it. */
  lemma HolderAdvances(c: Deployment, w: World, a: nat, p: nat)
    requires QueueInv(c, w) && InHand(w, a, p)
    ensures var v, h := AfterWork(c, w, a), w.hands[a].batch[p].handle;
            && Apply(c, w, Work(a)) == v && h < |v.t.rows|
            && (v.t.rows[h].status == Locked && w.t.rows[h].status == Locked ==>
                  && InHand(v, a, p) && v.hands[a].batch == w.hands[a].batch
                  && (v.hands[a].pos > w.hands[a].pos
                      || (v.hands[a].pos == w.hands[a].pos && Rank(v.hands[a].phase) < Rank(w.hands[a].phase))))
  {
    var hand := w.hands[a];
    assert HoldsRow(c, w.t.rows, hand, p);
    assert InHand(w, a, hand.pos) && HoldsRow(c, w.t.rows, hand, hand.pos);
    CommitProgresses(c, w.t, hand.batch[hand.pos], hand.phase, w.clock);
    CommitTouchesOneRow(c, w.t, hand.batch[hand.pos], hand.phase, w.clock);
    assert AfterWork(c, w, a).hands[a]
           == Advanced(hand, Commit(c, w.t, hand.batch[hand.pos], hand.phase, w.clock).next);
  }

  lemma CommitProgresses(c: Deployment, t: Db, msg: Message, phase: Phase, now: int)
    requires msg.handle < |t.rows|
    ensures var turn := Commit(c, t, msg, phase, now);
            && (turn.next.Some? ==> Rank(turn.next.value) < Rank(phase))
            && (turn.next.None? ==> phase.NoteDuplicate? || turn.db.rows[msg.handle].status != Locked)
  {
  }

  /** The commits that settle a message in hand. */
  lemma {:induction false} HolderSettles(c: Deployment, w: World, a: nat, p: nat) returns (steps: seq<Step>)
    requires QueueInv(c, w) && InHand(w, a, p) && w.t.rows[w.hands[a].batch[p].handle].status == Locked
    ensures w.hands[a].batch[p].handle < |Run(c, w, steps).t.rows|
    ensures Run(c, w, steps).t.rows[w.hands[a].batch[p].handle].status != Locked
    decreases p - w.hands[a].pos, Rank(w.hands[a].phase)
  {
    var h := w.hands[a].batch[p].handle;
    var v := Apply(c, w, Work(a));
    HolderAdvances(c, w, a, p);
    StepKeepsQueue(c, w, Work(a));
    var rest: seq<Step> := [];
    if v.t.rows[h].status == Locked {
      rest := HolderSettles(c, v, a, p);
    }
    steps := [Work(a)] + rest;
    assert steps[0] == Work(a) && steps[1..] == rest;
  }

  /**
   * A lock does not lapse: whatever the visibility timeout, a locked row can leave that status in some
   * continuation exactly when a worker still has its message in hand.
   */
  lemma LockEndsIffHeld(c: Deployment, w: World, h: nat)
    requires QueueInv(c, w) && h < |w.t.rows| && w.t.rows[h].status == Locked
    ensures (exists steps :: h < |Run(c, w, steps).t.rows| && Run(c, w, steps).t.rows[h].status != Locked)
            <==> !Unheld(w, h)
  {
    if Unheld(w, h) {
      forall steps ensures h < |Run(c, w, steps).t.rows| && Run(c, w, steps).t.rows[h].status == Locked {
        RunOnRow(c, w, steps, h);
      }
    } else {
      var a: nat, p: nat :| InHand(w, a, p) && w.hands[a].batch[p].handle == h;
      var steps := HolderSettles(c, w, a, p);
      assert Run(c, w, steps).t.rows[h].status != Locked;
    }
  }

  /** A crash takes the worker's messages out of all hands. */
  lemma CrashReleases(c: Deployment, w: World, a: nat, p: nat)
    requires QueueInv(c, w) && InHand(w, a, p)
    ensures Unheld(Apply(c, w, Crash(a)), w.hands[a].batch[p].handle)
  {
    var u := Apply(c, w, Crash(a));
    forall b: nat, q: nat | InHand(u, b, q) ensures u.hands[b].batch[q].handle != w.hands[a].batch[p].handle {
      assert b != a && InHand(w, b, q);
    }
  }

  /** A worker that crashes with a claimed message in hand leaves the message's row as it is, for ever. */
  lemma CrashStrands(c: Deployment, w: World, a: nat, p: nat, steps: seq<Step>)
    requires QueueInv(c, w) && InHand(w, a, p) && w.t.rows[w.hands[a].batch[p].handle].status == Locked
    ensures var h, v := w.hands[a].batch[p].handle, Run(c, Apply(c, w, Crash(a)), steps);
            h < |v.t.rows| && v.t.rows[h] == w.t.rows[h]
  {
    var u := Apply(c, w, Crash(a));
    CrashReleases(c, w, a, p);
    StepKeepsQueue(c, w, Crash(a));
    RunOnRow(c, u, steps, w.hands[a].batch[p].handle);
  }

  /** In every reachable state a delivered row has only delivered rows before it in its queue. */
  lemma FirstDeliveriesInOrder(c: Deployment, workers: nat, steps: seq<Step>, i: nat, j: nat)
    requires i < j < |Run(c, Init(workers), steps).t.rows|
    requires Run(c, Init(workers), steps).t.rows[i].queue == Run(c, Init(workers), steps).t.rows[j].queue
    requires Run(c, Init(workers), steps).t.rows[j].deliveries > 0
    ensures Run(c, Init(workers), steps).t.rows[i].deliveries > 0
  {
    QueueInvariant(c, workers, steps);
  }

  /** Workers, crashes and the clock never change how many rows the status histogram counts. */
  lemma HistogramIsConserved(c: Deployment, w: World, s: Step, queue: string)
    requires QueueInv(c, w) && (s.Tick? || s.Receive? || s.Work? || s.Crash?)
    ensures var rows, after := w.t.rows, Apply(c, w, s).t.rows;
            Count(after, queue, Available) + Count(after, queue, Locked) + Count(after, queue, Completed)
            + Count(after, queue, DeadLetter)
            == Count(rows, queue, Available) + Count(rows, queue, Locked) + Count(rows, queue, Completed)
               + Count(rows, queue, DeadLetter)
  {
    var rows, after := w.t.rows, Apply(c, w, s).t.rows;
    if s.Work? && s.worker < |w.hands| && Busy(w.hands[s.worker]) {
      var h := w.hands[s.worker];
      assert InHand(w, s.worker, h.pos) && HoldsRow(c, rows, h, h.pos);
      CommitTouchesOneRow(c, w.t, h.batch[h.pos], h.phase, w.clock);
    }
    assert |after| == |rows|;
    forall i: nat | i < |rows| ensures rows[i].queue == after[i].queue {
      StepOnRow(c, w, s, i);
    }
    HistogramSums(rows, queue);
    HistogramSums(after, queue);
    InQueueDependsOnQueues(rows, after, queue);
  }

  // ---------------------------------------------------------------- publishes

  /** The steps of a schedule that publish to the queue: foreign messages, copies, and submissions. */
  function PublishSteps(c: Deployment, w: World, steps: seq<Step>, queue: string): nat
    decreases |steps|
  {
    if steps == [] then 0
    else
      (if PublishesTo(c, w, steps[0], queue) then 1 else 0)
      + PublishSteps(c, Apply(c, w, steps[0]), steps[1..], queue)
  }

  predicate PublishesTo(c: Deployment, w: World, s: Step, queue: string)
  {
    match s
    case Publish(q, _) => q == queue
    case Republish(handle) => handle < |w.t.rows| && w.t.rows[handle].queue == queue
    case Call(req, f, res) => FreshIn(w, f) && Route(c, w.t, req, f, res).change.Enqueue? && c.queue == queue
    case Submit(req, f) => FreshIn(w, f) && Queueable(c, req) && c.queue == queue
    case _ => false
  }

  lemma OneMoreRow(c: Deployment, w: World, s: Step, queue: string)
    requires |Apply(c, w, s).t.rows| == |w.t.rows| + 1
    requires s.Publish? || s.Republish? || s.Call? || s.Submit?
    ensures var rows := Apply(c, w, s).t.rows;
            && rows[..|w.t.rows|] == w.t.rows && (PublishesTo(c, w, s, queue) <==> rows[|w.t.rows|].queue == queue)
  {
    if s.Call? {
      InvokeTables(c, w.t, s.req, s.f, s.res, w.clock);
      hide Route; hide Invoke;
    }
  }

  lemma StepPublishes(c: Deployment, w: World, s: Step, queue: string)
    requires QueueInv(c, w)
    ensures InQueue(Apply(c, w, s).t.rows, queue)
            == InQueue(w.t.rows, queue) + (if PublishesTo(c, w, s, queue) then 1 else 0)
  {
    var rows, after := w.t.rows, Apply(c, w, s).t.rows;
    SameRowCount(c, w, s);
    if |after| == |rows| + 1 {
      OneMoreRow(c, w, s, queue);
    } else {
      hide Apply; hide QueueInv; hide PublishesTo;
      forall i: nat | i < |rows| ensures rows[i].queue == after[i].queue {
        StepOnRow(c, w, s, i);
      }
      InQueueDependsOnQueues(rows, after, queue);
    }
  }

  /** A step adds a row or none, and it adds one only when it publishes. */
  lemma SameRowCount(c: Deployment, w: World, s: Step)
    requires QueueInv(c, w)
    ensures var n := |Apply(c, w, s).t.rows|;
            && (n == |w.t.rows| + 1 ==> s.Publish? || s.Republish? || s.Call? || s.Submit?)
            && (n != |w.t.rows| + 1 ==> n == |w.t.rows| && forall queue :: !PublishesTo(c, w, s, queue))
  {
    match s
    case Work(i) =>
      if i < |w.hands| && Busy(w.hands[i]) {
        var h := w.hands[i];
        assert InHand(w, i, h.pos) && HoldsRow(c, w.t.rows, h, h.pos);
        CommitTouchesOneRow(c, w.t, h.batch[h.pos], h.phase, w.clock);
      }
    case Call(req, f, res) => InvokeTables(c, w.t, req, f, res, w.clock);
    case _ =>
  }

  lemma {:induction false} RunPublishes(c: Deployment, w: World, steps: seq<Step>, queue: string)
    requires QueueInv(c, w)
    ensures InQueue(Run(c, w, steps).t.rows, queue) == InQueue(w.t.rows, queue) + PublishSteps(c, w, steps, queue)
    decreases |steps|
  {
    if steps != [] {
      StepPublishes(c, w, steps[0], queue);
      StepKeepsQueue(c, w, steps[0]);
      RunPublishes(c, Apply(c, w, steps[0]), steps[1..], queue);
    }
  }

  /** After every schedule the status histogram of a queue sums to the number of messages published to it. */
  lemma HistogramCountsPublishes(c: Deployment, workers: nat, steps: seq<Step>, queue: string)
    ensures var rows := Run(c, Init(workers), steps).t.rows;
            Count(rows, queue, Available) + Count(rows, queue, Locked) + Count(rows, queue, Completed)
            + Count(rows, queue, DeadLetter) == PublishSteps(c, Init(workers), steps, queue)
  {
    QueueInvariant(c, workers, []);
    RunPublishes(c, Init(workers), steps, queue);
    HistogramSums(Run(c, Init(workers), steps).t.rows, queue);
  }

  /** A submission with nothing between its two commits is the whole invocation, and its commits are those it logs. */
  lemma CallIsSubmitThenConclude(c: Deployment, w: World, req: Request, f: Fresh, res: HandlerResult)
    requires FreshIn(w, f) && Route(c, w.t, req, f, res).change.Enqueue?
    ensures Apply(c, Apply(c, w, Submit(req, f)), Conclude(f.jobId)) == Apply(c, w, Call(req, f, res))
    ensures InvokeCommits(c, w.t, req, f, res, w.clock)
            == [Apply(c, w, Submit(req, f)).t, Apply(c, Apply(c, w, Submit(req, f)), Conclude(f.jobId)).t]
  {
    var u := Apply(c, w, Submit(req, f));
    assert u.open - {f.jobId} == w.open;
  }
}
