/** How long a published row can wait for its first delivery. */
module BoundedWait {
  import opened Tables
  import opened Catalog
  import opened LocalQueue
  import opened Protocol
  import opened QueueRuns

  /** How many of the first `r` rows are in the queue. */
  function Older(rows: seq<Row>, queue: string, r: nat): nat
    requires r <= |rows|
  {
    if r == 0 then 0 else Older(rows, queue, r - 1) + (if rows[r - 1].queue == queue then 1 else 0)
  }

  /** The deliveries those rows have had. */
  function Spent(rows: seq<Row>, queue: string, r: nat): nat
    requires r <= |rows|
  {
    if r == 0 then 0 else Spent(rows, queue, r - 1) + (if rows[r - 1].queue == queue then rows[r - 1].deliveries else 0)
  }

  /** The polls in a schedule that an idle worker makes with a batch size of at least m. */
  function Polls(c: Deployment, w: World, steps: seq<Step>, m: nat): nat
    decreases |steps|
  {
    if steps == [] then 0
    else (if IsPoll(w, steps[0], m) then 1 else 0) + Polls(c, Apply(c, w, steps[0]), steps[1..], m)
  }

  predicate IsPoll(w: World, s: Step, m: nat)
  {
    s.Receive? && s.worker < |w.hands| && !Busy(w.hands[s.worker]) && s.max >= m
  }

  lemma OneMore(n: nat, m: nat)
    ensures (n + 1) * m == n * m + m
  {
  }

  lemma {:induction false} SpentIsBounded(c: Deployment, rows: seq<Row>, queue: string, r: nat, clock: int)
    requires r <= |rows| && forall i :: 0 <= i < |rows| ==> RowOk(c, rows[i], clock)
    ensures Spent(rows, queue, r) <= Older(rows, queue, r) * Bound(c)
  {
    if r > 0 {
      SpentIsBounded(c, rows, queue, r - 1, clock);
      assert RowOk(c, rows[r - 1], clock);
      OneMore(Older(rows, queue, r - 1), Bound(c));
    }
  }

  lemma {:induction false} SpentGrows(a: seq<Row>, b: seq<Row>, queue: string, r: nat)
    requires r <= |a| && r <= |b|
    requires forall i :: 0 <= i < r ==> a[i].queue == b[i].queue && a[i].deliveries <= b[i].deliveries
    ensures Spent(a, queue, r) <= Spent(b, queue, r) && Older(a, queue, r) == Older(b, queue, r)
  {
    if r > 0 {
      SpentGrows(a, b, queue, r - 1);
    }
  }

  /** One more delivery of an older row. */
  lemma {:induction false} SpentAtOne(a: seq<Row>, b: seq<Row>, queue: string, r: nat, k: nat)
    requires k < r <= |a| && |a| == |b| && a[k].queue == queue
    requires b == a[k := b[k]] && b[k].queue == queue && b[k].deliveries == a[k].deliveries + 1
    ensures Spent(b, queue, r) == Spent(a, queue, r) + 1
  {
    if k < r - 1 {
      SpentAtOne(a, b, queue, r - 1, k);
    } else {
      SpentGrows(a, b, queue, k);
      SpentGrows(b, a, queue, k);
    }
  }

  lemma {:induction false} SpentByClaim(rows: seq<Row>, ids: seq<nat>, queue: string, r: nat, now: int, timeout: int)
    requires r <= |rows|
    requires forall i :: 0 <= i < |ids| ==> ids[i] < r && rows[ids[i]].queue == queue
    requires forall i, j :: 0 <= i < j < |ids| ==> ids[i] != ids[j]
    ensures Spent(ClaimAll(rows, ids, now, timeout), queue, r) == Spent(rows, queue, r) + |ids|
    decreases |ids|
  {
    if ids == [] {
      assert ClaimAll(rows, ids, now, timeout) == rows;
    } else {
      var n := |ids| - 1;
      SpentByClaim(rows, ids[..n], queue, r, now, timeout);
      assert ids[..n + 1] == ids;
      ClaimOneMore(rows, ids, n, now, timeout);
      SpentAtOne(ClaimAll(rows, ids[..n], now, timeout), ClaimAll(rows, ids, now, timeout), queue, r, ids[n]);
    }
  }

  /** A poll either delivers row r or spends a full batch of deliveries on older rows. */
  lemma PollSpends(c: Deployment, w: World, s: Step, m: nat, r: nat)
    requires QueueInv(c, w) && r < |w.t.rows| && w.t.rows[r].deliveries == 0 && w.t.rows[r].queue == c.queue
    requires IsPoll(w, s, m)
    ensures var rows := Apply(c, w, s).t.rows;
            r < |rows| && (rows[r].deliveries >= 1 || Spent(rows, c.queue, r) >= Spent(w.t.rows, c.queue, r) + m)
  {
    var rows := w.t.rows;
    var ids := Selected(rows, c.queue, w.clock, s.max);
    SelectedExact(rows, c.queue, w.clock, s.max);
    assert RowOk(c, rows[r], w.clock);
    assert IsReady(rows[r], c.queue, w.clock);
    if r !in ids {
      forall i | 0 <= i < |ids| ensures ids[i] < r && rows[ids[i]].queue == c.queue {
        assert ids[i] in ids;
      }
      SpentByClaim(rows, ids, c.queue, r, w.clock, s.timeout);
    }
  }

  lemma StepSpends(c: Deployment, w: World, s: Step, m: nat, r: nat)
    requires QueueInv(c, w) && r < |w.t.rows| && w.t.rows[r].queue == c.queue
    ensures var rows := Apply(c, w, s).t.rows;
            && r < |rows| && rows[r].queue == c.queue
            && Older(rows, c.queue, r) == Older(w.t.rows, c.queue, r)
            && rows[r].deliveries >= w.t.rows[r].deliveries
            && (rows[r].deliveries >= 1
                || Spent(rows, c.queue, r) >= Spent(w.t.rows, c.queue, r) + (if IsPoll(w, s, m) then m else 0))
  {
    StepOnRow(c, w, s, r);
    var rows := Apply(c, w, s).t.rows;
    forall i | 0 <= i < r ensures w.t.rows[i].queue == rows[i].queue && w.t.rows[i].deliveries <= rows[i].deliveries {
      StepOnRow(c, w, s, i);
    }
    SpentGrows(w.t.rows, rows, c.queue, r);
    if IsPoll(w, s, m) && w.t.rows[r].deliveries == 0 {
      PollSpends(c, w, s, m, r);
    }
  }

  lemma {:induction false} RunSpends(c: Deployment, w: World, steps: seq<Step>, m: nat, r: nat)
    requires QueueInv(c, w) && r < |w.t.rows| && w.t.rows[r].queue == c.queue
    ensures var rows := Run(c, w, steps).t.rows;
            && r < |rows|
            && rows[r].deliveries >= w.t.rows[r].deliveries
            && Older(rows, c.queue, r) == Older(w.t.rows, c.queue, r)
            && (rows[r].deliveries >= 1
                || Spent(rows, c.queue, r) >= Spent(w.t.rows, c.queue, r) + Polls(c, w, steps, m) * m)
    decreases |steps|
  {
    hide QueueInv; hide Apply; hide IsPoll; hide Spent; hide Older;
    if steps != [] {
      var v := Apply(c, w, steps[0]);
      StepKeepsQueue(c, w, steps[0]);
      StepSpends(c, w, steps[0], m, r);
      RunSpends(c, v, steps[1..], m, r);
      OneMore(Polls(c, v, steps[1..], m), m);
    }
  }

  /**
   * A row with k older rows in its queue is delivered within floor(k * M' / m) + 1 polls of batch size m,
   * whatever is published later, whatever the handlers do and whichever workers crash.
   */
  lemma WaitIsBounded(c: Deployment, workers: nat, before: seq<Step>, after: seq<Step>, m: nat, r: nat)
    requires m >= 1
    requires r < |Run(c, Init(workers), before).t.rows| && Run(c, Init(workers), before).t.rows[r].queue == c.queue
    requires Polls(c, Run(c, Init(workers), before), after, m)
             >= Older(Run(c, Init(workers), before).t.rows, c.queue, r) * Bound(c) / m + 1
    ensures r < |Run(c, Init(workers), before + after).t.rows|
    ensures Run(c, Init(workers), before + after).t.rows[r].deliveries >= 1
  {
    var w := Run(c, Init(workers), before);
    var v := Run(c, w, after);
    QueueInvariant(c, workers, before);
    RunConcat(c, Init(workers), before, after);
    RunKeepsQueue(c, w, after);
    RunSpends(c, w, after, m, r);
    SpentIsBounded(c, v.t.rows, c.queue, r, v.clock);
    BatchesExceed(Older(w.t.rows, c.queue, r) * Bound(c), m, Polls(c, w, after, m));
  }

  lemma BatchesExceed(total: nat, m: nat, polls: nat)
    requires m >= 1 && polls >= total / m + 1
    ensures polls * m > total
  {
    assert total == m * (total / m) + total % m;
    assert polls * m >= (total / m + 1) * m;
  }
}
