/**
 * The main results about runs in which only the gateway publishes and no tool runs before its submission is committed.
 */
module DeliveryTheorems {
  import opened Values
  import opened Tables
  import opened Catalog
  import opened Gateway
  import opened Worker
  import opened Protocol
  import opened QueueRuns
  import opened OpenSubmissions
  import opened DeliveryRuns

  // ---------------------------------------------------------------- keys, jobs and rows in bijection

  /** The key's job has a row, which names both. */
  ghost predicate HasRow(t: Db, key: string)
    requires key in t.keys
  {
    exists r :: 0 <= r < |t.rows| && t.rows[r].body.key == Some(key) && t.rows[r].body.jobId == Some(t.keys[key].jobId)
  }

  /** Every key has a row, and every job is the job of its key. */
  ghost predicate Covered(t: Db)
  {
    && (forall k :: k in t.keys ==> HasRow(t, k) && t.keys[k].jobId in t.jobs)
    && (forall j :: j in t.jobs ==> t.jobs[j].key in t.keys && t.keys[t.jobs[j].key].jobId == j)
  }

  lemma BodiesKeepRows(t: Db, u: Db, key: string)
    requires key in t.keys && HasRow(t, key) && |t.rows| <= |u.rows|
    requires key in u.keys && u.keys[key].jobId == t.keys[key].jobId
    requires forall r :: 0 <= r < |t.rows| ==> u.rows[r].body == t.rows[r].body
    ensures HasRow(u, key)
  {
    var r :| 0 <= r < |t.rows| && t.rows[r].body.key == Some(key) && t.rows[r].body.jobId == Some(t.keys[key].jobId);
    assert u.rows[r].body == t.rows[r].body;
  }

  /** Steps other than a first submission keep keys, jobs and who belongs to whom. */
  ghost predicate SameRecords(t: Db, u: Db)
  {
    && u.jobs.Keys == t.jobs.Keys && u.keys.Keys == t.keys.Keys
    && (forall j :: j in t.jobs ==> Pristine(u.jobs[j]) == Pristine(t.jobs[j]))
    && (forall k :: k in t.keys ==> u.keys[k].jobId == t.keys[k].jobId)
  }

  lemma WorkKeepsRecords(c: Deployment, w: World, i: nat)
    requires i < |w.hands| && Busy(w.hands[i])
    ensures SameRecords(w.t, AfterWork(c, w, i).t)
  {
    var h := w.hands[i];
    JobsFrame(c, w.t, h.batch[h.pos], h.phase, w.clock);
    KeysFrame(c, w.t, h.batch[h.pos], h.phase, w.clock);
  }

  lemma StepKeepsRecords(c: Deployment, w: World, s: Step)
    requires !Enqueues(c, w, s)
    ensures SameRecords(w.t, Apply(c, w, s).t)
  {
    match s
    case Work(i) =>
      hide AfterWork;
      if i < |w.hands| && Busy(w.hands[i]) {
        WorkKeepsRecords(c, w, i);
      }
    case Call(req, f, res) =>
      if FreshIn(w, f) {
        InvokeTables(c, w.t, req, f, res, w.clock);
        hide Route; hide Invoke;
      }
    case _ =>
      hide Route; hide Invoke;
  }

  lemma KeyJoins(t: Db, u: Db, key: string, keyRow: KeyRow, job: Job)
    requires Covered(t) && key !in t.keys && keyRow.jobId !in t.jobs && job.key == key
    requires u.keys == t.keys[key := keyRow] && u.jobs == t.jobs[keyRow.jobId := job] && HasRow(u, key)
    requires |t.rows| <= |u.rows| && forall r :: 0 <= r < |t.rows| ==> u.rows[r].body == t.rows[r].body
    ensures Covered(u)
  {
    hide HasRow;
    forall k | k in u.keys ensures HasRow(u, k) && u.keys[k].jobId in u.jobs {
      if k != key {
        BodiesKeepRows(t, u, k);
      }
    }
  }

  /** A new key comes with its row and its job. */
  lemma EnteringKeepsCover(c: Deployment, w: World, v: World, s: Submission)
    requires Covered(w.t) && Entered(c, w, v, s) && |w.t.rows| <= |v.t.rows|
    requires forall r :: 0 <= r < |w.t.rows| ==> v.t.rows[r].body == w.t.rows[r].body
    ensures Covered(v.t)
  {
    hide Covered; hide HasRow; hide Entered; hide EffectiveKey; hide NewJob;
    NewKeyHasRow(c, w, v, s);
    KeyJoins(w.t, v.t, EffectiveKey(s.req, s.f), SubmissionKey(c, s.req, s.f), NewJob(s.req, s.args, s.f));
  }

  lemma NewKeyHasRow(c: Deployment, w: World, v: World, s: Submission)
    requires Entered(c, w, v, s)
    ensures var key := EffectiveKey(s.req, s.f);
            && key !in w.t.keys && s.f.jobId !in w.t.jobs
            && v.t.keys == w.t.keys[key := SubmissionKey(c, s.req, s.f)]
            && v.t.jobs == w.t.jobs[s.f.jobId := NewJob(s.req, s.args, s.f)] && NewJob(s.req, s.args, s.f).key == key
            && HasRow(v.t, key)
  {
    var r :| 0 <= r < |v.t.rows| && v.t.rows[r].body == SubmissionBody(s.req, s.args, s.f);
    assert v.t.rows[r].body.key == Some(EffectiveKey(s.req, s.f));
  }

  lemma StayingKeepsCover(t: Db, u: Db)
    requires Covered(t) && SameRecords(t, u) && |t.rows| <= |u.rows|
    requires forall r :: 0 <= r < |t.rows| ==> u.rows[r].body == t.rows[r].body
    ensures Covered(u)
  {
    forall k | k in u.keys ensures HasRow(u, k) {
      BodiesKeepRows(t, u, k);
    }
    forall j | j in u.jobs ensures u.jobs[j].key in u.keys && u.keys[u.jobs[j].key].jobId == j {
      assert Pristine(u.jobs[j]).key == Pristine(t.jobs[j]).key;
    }
  }

  lemma StepKeepsCover(c: Deployment, w: World, s: Step)
    requires QueueInv(c, w) && OpenOk(c, w) && Covered(w.t)
    ensures Covered(Apply(c, w, s).t)
  {
    BodiesStay(c, w, s);
    if Enqueues(c, w, s) {
      var sub := StepEnters(c, w, s);
      EnteringKeepsCover(c, w, Apply(c, w, s), sub);
    } else {
      StepKeepsRecords(c, w, s);
      StayingKeepsCover(w.t, Apply(c, w, s).t);
    }
  }

  lemma {:induction false} RunKeepsCover(c: Deployment, w: World, steps: seq<Step>)
    requires QueueInv(c, w) && OpenOk(c, w) && Covered(w.t)
    ensures Covered(Run(c, w, steps).t)
    decreases |steps|
  {
    if steps != [] {
      StepKeepsQueue(c, w, steps[0]);
      StepKeepsOpen(c, w, steps[0]);
      StepKeepsCover(c, w, steps[0]);
      RunKeepsCover(c, Apply(c, w, steps[0]), steps[1..]);
    }
  }

  /**
   * Keys, jobs and rows are in bijection: keys and jobs name each other, each has a row that names both, every row is
   * of that kind or belongs to a submission between its two commits, and no two rows share a job.
   */
  lemma KeysJobsRowsBijection(c: Deployment, workers: nat, steps: seq<Step>)
    requires GatewayOnly(c, Init(workers), steps)
    ensures var w := Run(c, Init(workers), steps);
            && AllKnown(c, w.t)
            && (forall r :: 0 <= r < |w.t.rows| ==>
                  (Linked(c, w.t, w.t.rows[r]) <==> w.t.rows[r].body.jobId.value !in w.open))
            && (forall k :: k in w.t.keys ==>
                  HasRow(w.t, k) && w.t.keys[k].jobId in w.t.jobs && w.t.jobs[w.t.keys[k].jobId].key == k)
            && (forall j :: j in w.t.jobs ==> w.t.jobs[j].key in w.t.keys && w.t.keys[w.t.jobs[j].key].jobId == j)
  {
    DeliveryInvariant(c, workers, steps);
    QueueInvariant(c, workers, []);
    RunKeepsCover(c, Init(workers), steps);
    var w := Run(c, Init(workers), steps);
    forall r | 0 <= r < |w.t.rows| ensures Linked(c, w.t, w.t.rows[r]) <==> w.t.rows[r].body.jobId.value !in w.open {
      LinkedIffCommitted(c, w, r);
    }
    forall k | k in w.t.keys ensures w.t.keys[k].jobId in w.t.jobs && w.t.jobs[w.t.keys[k].jobId].key == k {
      var r := RowOfKey(c, w, k);
    }
  }

  /** A row is linked exactly when its submission is not open. */
  lemma LinkedIffCommitted(c: Deployment, w: World, r: nat)
    requires DeliveryInv(c, w) && r < |w.t.rows|
    ensures w.t.rows[r].body.jobId.Some?
    ensures Linked(c, w.t, w.t.rows[r]) <==> w.t.rows[r].body.jobId.value !in w.open
    ensures Announced(c, w.t, w.t.rows[r]) <==> w.t.rows[r].body.jobId.value in w.open
  {
    if w.t.rows[r].body.jobId.Some? && w.t.rows[r].body.jobId.value in w.open {
      assert SubmissionOk(c, w.t, w.t.rows[r].body.jobId.value, w.open[w.t.rows[r].body.jobId.value]);
    }
  }

  /** The linked row of a key. */
  lemma RowOfKey(c: Deployment, w: World, k: string) returns (r: nat)
    requires DeliveryInv(c, w) && Covered(w.t) && k in w.t.keys
    ensures r < |w.t.rows| && w.t.rows[r].body.key == Some(k) && w.t.rows[r].body.jobId == Some(w.t.keys[k].jobId)
    ensures Linked(c, w.t, w.t.rows[r])
  {
    assert HasRow(w.t, k);
    r :| r < |w.t.rows| && w.t.rows[r].body.key == Some(k) && w.t.rows[r].body.jobId == Some(w.t.keys[k].jobId);
  }

  /** The one row of a job. */
  lemma RowOfJob(c: Deployment, workers: nat, steps: seq<Step>, j: string) returns (r: nat)
    requires GatewayOnly(c, Init(workers), steps) && j in Run(c, Init(workers), steps).t.jobs
    ensures var t := Run(c, Init(workers), steps).t;
            && r < |t.rows| && t.rows[r].body.jobId == Some(j) && t.rows[r].body.key == Some(t.jobs[j].key)
            && forall s :: 0 <= s < |t.rows| && t.rows[s].body.jobId == Some(j) ==> s == r
  {
    KeysJobsRowsBijection(c, workers, steps);
    var t := Run(c, Init(workers), steps).t;
    assert HasRow(t, t.jobs[j].key);
    r :| 0 <= r < |t.rows| && t.rows[r].body.key == Some(t.jobs[j].key) && t.rows[r].body.jobId == Some(j);
  }

  // ---------------------------------------------------------------- handler runs

  function Successes(runs: seq<HandlerRun>): nat
  {
    if runs == [] then 0
    else
      var last := runs[|runs| - 1];
      Successes(runs[..|runs| - 1]) + (if last.InWorker? && last.res.Returned? then 1 else 0)
  }

  lemma {:induction false} FaultsDoNotCount(c: Deployment, r: nat, runs: seq<HandlerRun>, n: nat)
    requires RanTimes(c, r, runs, n) && AllFault(c, r, n)
    ensures Successes(runs) == 0
    decreases n
  {
    if n > 0 {
      FaultsDoNotCount(c, r, runs[..n - 1], n - 1);
    }
  }

  /** In every stage the handler ran for deliveries 1, 2, ... once each, and only the last run can be a success. */
  lemma StageRuns(c: Deployment, r: nat, s: Slice)
    requires StageOk(c, r, s)
    ensures RanTimes(c, r, s.runs, |s.runs|) && |s.runs| <= s.row.deliveries
    ensures |s.runs| > 0 ==> AllFault(c, r, |s.runs| - 1)
    ensures Successes(s.runs) <= 1
  {
    var n := |s.runs|;
    if n > 0 {
      assert RanTimes(c, r, s.runs, n) && n <= s.row.deliveries && AllFault(c, r, n - 1);
      FaultsDoNotCount(c, r, s.runs[..n - 1], n - 1);
    }
  }

  /** The runs under one key are the runs of one row. */
  lemma RunsOfKey(c: Deployment, workers: nat, steps: seq<Step>, key: string) returns (r: nat)
    requires GatewayOnly(c, Init(workers), steps)
    ensures var runs := RunsOf(Run(c, Init(workers), steps).runs, key);
            && RanTimes(c, r, runs, |runs|) && |runs| <= Bound(c) && Successes(runs) <= 1
            && (|runs| > 0 ==> AllFault(c, r, |runs| - 1))
  {
    var w := Run(c, Init(workers), steps);
    DeliveryInvariant(c, workers, steps);
    QueueInvariant(c, workers, []);
    RunKeepsCover(c, Init(workers), steps);
    r := 0;
    if key in w.t.keys {
      r := RowOfKey(c, w, key);
      assert RowStage(c, w.t, w.runs, r) && RowOk(c, w.t.rows[r], w.clock);
      StageRuns(c, r, SliceOf(c, w.t, w.runs, r));
    } else {
      NoRunsYet(w.runs, key);
    }
  }

  /**
   * Each idempotency key has at most one successful handler run and at most M' handler runs, with any number of
   * interleaved workers that crash anywhere.
   */
  lemma AtMostOneSuccessfulRun(c: Deployment, workers: nat, steps: seq<Step>, key: string)
    requires GatewayOnly(c, Init(workers), steps)
    ensures Successes(RunsOf(Run(c, Init(workers), steps).runs, key)) <= 1
    ensures |RunsOf(Run(c, Init(workers), steps).runs, key)| <= Bound(c)
  {
    var r := RunsOfKey(c, workers, steps, key);
  }

  /** No worker ever runs the tool twice for one delivery of one row, nor again after a success. */
  lemma EachDeliveryRunsOnce(c: Deployment, workers: nat, steps: seq<Step>, key: string, i: nat, j: nat)
    requires GatewayOnly(c, Init(workers), steps)
    requires i < j < |RunsOf(Run(c, Init(workers), steps).runs, key)|
    ensures var runs := RunsOf(Run(c, Init(workers), steps).runs, key);
            && runs[i].InWorker? && runs[j].InWorker? && runs[i].message.handle == runs[j].message.handle
            && runs[i].message.deliveries == i + 1 && runs[j].message.deliveries == j + 1 && !runs[i].res.Returned?
  {
    var r := RunsOfKey(c, workers, steps, key);
  }

  // ---------------------------------------------------------------- record before settle

  predicate Decided(status: JobStatus)
  {
    status == Succeeded || status == DeadLettered
  }

  /**
   * At every commit point: a completed row has a succeeded job and a completed key, a dead-lettered row has a
   * dead-lettered job and an open key, an available row has an undecided job. The worker's test on the message's
   * count and the queue's test on the row's count therefore agree. The row of a submission between its commits is never
   * dead-lettered, and completed only when another submission took its key.
   */
  lemma RecordBeforeSettle(c: Deployment, workers: nat, steps: seq<Step>, r: nat)
    requires GatewayOnly(c, Init(workers), steps) && r < |Run(c, Init(workers), steps).t.rows|
    ensures var w := Run(c, Init(workers), steps);
            && w.t.rows[r].body.jobId.Some?
            && (w.t.rows[r].body.jobId.value !in w.open ==> Linked(c, w.t, w.t.rows[r]) && Agrees(c, w.t, r))
            && (w.t.rows[r].body.jobId.value in w.open ==>
                  && w.t.rows[r].status != DeadLetter && w.t.rows[r].body.key.Some?
                  && (w.t.rows[r].status == Completed ==> w.t.rows[r].body.key.value in w.t.keys))
  {
    var w := Run(c, Init(workers), steps);
    DeliveryInvariant(c, workers, steps);
    LinkedIffCommitted(c, w, r);
    assert RowStage(c, w.t, w.runs, r);
  }

  /** Row, job and key tell one story. */
  predicate Agrees(c: Deployment, t: Db, r: nat)
    requires r < |t.rows| && Linked(c, t, t.rows[r])
  {
    var row, key := t.rows[r], t.keys[t.rows[r].body.key.value];
    var status := t.jobs[row.body.jobId.value].status;
    && (row.status == Completed ==> status == Succeeded && key.completed)
    && (row.status == DeadLetter ==> status == DeadLettered && !key.completed)
    && (row.status == Available ==> !Decided(status) && !key.completed)
    && (key.completed <==> status == Succeeded)
  }

  /** An undecided job has exactly one row, and that row is available or locked. */
  lemma UndecidedJobHasItsRow(c: Deployment, workers: nat, steps: seq<Step>, j: string) returns (r: nat)
    requires GatewayOnly(c, Init(workers), steps) && j in Run(c, Init(workers), steps).t.jobs
    requires !Decided(Run(c, Init(workers), steps).t.jobs[j].status)
    ensures var rows := Run(c, Init(workers), steps).t.rows;
            && r < |rows| && rows[r].body.jobId == Some(j)
            && (forall s :: 0 <= s < |rows| && rows[s].body.jobId == Some(j) ==> s == r)
            && (rows[r].status == Available || rows[r].status == Locked)
  {
    r := RowOfJob(c, workers, steps, j);
    RecordBeforeSettle(c, workers, steps, r);
    KeysJobsRowsBijection(c, workers, steps);
  }

  /** A message whose submission is committed is never taken for a duplicate, and none for an unknown tool. */
  lemma NoDuplicateOrUnknown(c: Deployment, workers: nat, steps: seq<Step>, a: nat)
    requires GatewayOnly(c, Init(workers), steps) && a < |Run(c, Init(workers), steps).hands|
    requires Busy(Run(c, Init(workers), steps).hands[a])
    ensures var w := Run(c, Init(workers), steps);
            var phase, body := w.hands[a].phase, w.hands[a].batch[w.hands[a].pos].body;
            && !phase.RejectUnknown? && !phase.SettleUnknown? && body.jobId.Some?
            && (body.jobId.value !in w.open ==> !phase.SettleDuplicate? && !phase.NoteDuplicate?)
  {
    var w := Run(c, Init(workers), steps);
    DeliveryInvariant(c, workers, steps);
    var h := w.hands[a];
    assert InHand(w, a, h.pos) && HandOk(c, w, a, h.pos) && HoldsRow(c, w.t.rows, h, h.pos);
    LinkedIffCommitted(c, w, h.batch[h.pos].handle);
  }

  // ---------------------------------------------------------------- retry refinement

  /** The first success within the bound decides: its attempt, its result, and the error of the failure before it. */
  lemma {:induction false} FirstSuccessDecides(c: Deployment, r: nat, job: Job, a: nat, n: nat)
    requires a <= n && c.handler(r, n).Returned? && (n == a || n <= c.maxDelivery)
    requires forall b :: a <= b < n ==> !c.handler(r, b).Returned?
    ensures var last := if n == a then job else FailedJob(c, job, c.handler(r, n - 1), n - 1);
            TryFrom(c, r, job, a) == last.(status := Succeeded, result := Some(c.handler(r, n).output), attempts := n)
    decreases n - a
  {
    if a < n {
      FirstSuccessDecides(c, r, FailedJob(c, job, c.handler(r, a), a), a + 1, n);
    }
  }

  /** Without a success the last permitted attempt decides. */
  lemma {:induction false} LastFailureDecides(c: Deployment, r: nat, job: Job, a: nat, n: nat)
    requires a <= n && (n == a || n <= c.maxDelivery) && n >= c.maxDelivery
    requires forall b :: a <= b <= n ==> !c.handler(r, b).Returned?
    ensures TryFrom(c, r, job, a) == FailedJob(c, job, c.handler(r, n), n)
    ensures TryFrom(c, r, job, a).status == DeadLettered && TryFrom(c, r, job, a).attempts == n
    decreases n - a
  {
    if a < n {
      LastFailureDecides(c, r, FailedJob(c, job, c.handler(r, a), a), a + 1, n);
    }
  }

  lemma StepKeepsPristine(c: Deployment, w: World, s: Step, j: string)
    requires OpenOk(c, w) && j in w.t.jobs
    ensures j in Apply(c, w, s).t.jobs && Pristine(Apply(c, w, s).t.jobs[j]) == Pristine(w.t.jobs[j])
  {
    if Enqueues(c, w, s) {
      var sub := StepEnters(c, w, s);
    } else {
      StepKeepsRecords(c, w, s);
    }
  }

  lemma {:induction false} RunKeepsPristine(c: Deployment, w: World, steps: seq<Step>, j: string)
    requires QueueInv(c, w) && OpenOk(c, w) && j in w.t.jobs
    ensures j in Run(c, w, steps).t.jobs && Pristine(Run(c, w, steps).t.jobs[j]) == Pristine(w.t.jobs[j])
    decreases |steps|
  {
    if steps != [] {
      StepKeepsPristine(c, w, steps[0], j);
      StepKeepsQueue(c, w, steps[0]);
      StepKeepsOpen(c, w, steps[0]);
      RunKeepsPristine(c, Apply(c, w, steps[0]), steps[1..], j);
    }
  }

  /**
   * Whenever a job's row is settled, the job record is exactly what trying up to M' times makes of the submitted
   * job, whatever the interleaving, the batch sizes and the crashes were; and the tool ran `attempts` times.
   */
  lemma RetryRefinement(c: Deployment, workers: nat, before: seq<Step>, after: seq<Step>, j: string, r: nat)
    requires GatewayOnly(c, Init(workers), before + after) && j in Run(c, Init(workers), before).t.jobs
    requires r < |Run(c, Init(workers), before + after).t.rows|
    requires Run(c, Init(workers), before + after).t.rows[r].body.jobId == Some(j)
    requires Terminal(Run(c, Init(workers), before + after).t.rows[r])
    ensures var w, v := Run(c, Init(workers), before), Run(c, Init(workers), before + after);
            && j in v.t.jobs && v.t.jobs[j] == TryFrom(c, r, Pristine(w.t.jobs[j]), 1)
            && |RunsOf(v.runs, v.t.jobs[j].key)| == v.t.jobs[j].attempts == v.t.rows[r].deliveries
  {
    var w, v := Run(c, Init(workers), before), Run(c, Init(workers), before + after);
    QueueInvariant(c, workers, before);
    OpenInvariant(c, workers, before);
    RunConcat(c, Init(workers), before, after);
    RunKeepsPristine(c, w, after, j);
    DeliveryInvariant(c, workers, before + after);
    assert RowStage(c, v.t, v.runs, r);
  }

  predicate ShowsError(job: Job, res: HandlerResult)
    requires !res.Returned?
  {
    job.errorDetail == Some(res.text) && job.errorCode.Some? && FiledUnder(res, job.errorCode.value)
  }

  /**
   * The record of a job that was decided by attempt `n`: all earlier attempts failed, and no more than M' were made. A
   * success keeps the error of the failure before it; a dead letter shows the last failure and no result.
   */
  predicate DecidedBy(c: Deployment, r: nat, job: Job, n: nat)
  {
    && 1 <= n && (n == 1 || n <= c.maxDelivery) && (forall a :: 1 <= a < n ==> !c.handler(r, a).Returned?)
    && job.attempts == n
    && match c.handler(r, n)
       case Returned(output, _, _) =>
         && job.status == Succeeded && job.result == Some(output)
         && (n == 1 ==> job.errorCode == None && job.errorDetail == None)
         && (n > 1 ==> ShowsError(job, c.handler(r, n - 1)))
       case _ =>
         job.status == DeadLettered && job.result == None && n >= c.maxDelivery && ShowsError(job, c.handler(r, n))
  }

  lemma {:induction false} TriesDecide(c: Deployment, r: nat, job: Job, a: nat)
    requires a >= 1 && (a == 1 || a <= c.maxDelivery) && forall b :: 1 <= b < a ==> !c.handler(r, b).Returned?
    requires job.result == None
    requires if a == 1 then job.errorCode == None && job.errorDetail == None else ShowsError(job, c.handler(r, a - 1))
    ensures DecidedBy(c, r, TryFrom(c, r, job, a), TryFrom(c, r, job, a).attempts)
    decreases if a < c.maxDelivery then c.maxDelivery - a else 0
  {
    var res := c.handler(r, a);
    if !res.Returned? && a < c.maxDelivery {
      TriesDecide(c, r, FailedJob(c, job, res, a), a + 1);
    }
  }

  /**
   * A settled job, whatever the interleaving and the crashes were, shows the delivery that decided it: a completed row
   * means that the last delivery returned, a dead-lettered row that M' deliveries failed. The other fields are those
   * of the submission.
   */
  lemma SettledJobIsExact(c: Deployment, workers: nat, steps: seq<Step>, r: nat)
    requires GatewayOnly(c, Init(workers), steps) && r < |Run(c, Init(workers), steps).t.rows|
    requires var w := Run(c, Init(workers), steps);
             Terminal(w.t.rows[r]) && w.t.rows[r].body.jobId.Some? && w.t.rows[r].body.jobId.value in w.t.jobs
    ensures var w := Run(c, Init(workers), steps);
            var row, job := w.t.rows[r], w.t.jobs[w.t.rows[r].body.jobId.value];
            && DecidedBy(c, r, job, row.deliveries)
            && (row.status == Completed <==> c.handler(r, row.deliveries).Returned?)
  {
    var w := Run(c, Init(workers), steps);
    var j := w.t.rows[r].body.jobId.value;
    assert steps + [] == steps;
    RetryRefinement(c, workers, steps, [], j, r);
    TriesDecide(c, r, Pristine(w.t.jobs[j]), 1);
    RecordBeforeSettle(c, workers, steps, r);
    KeysJobsRowsBijection(c, workers, steps);
  }

  /** Two continuations of one run that both settle a job leave the same record of it. */
  lemma ScheduleIndependence(c: Deployment, workers: nat, before: seq<Step>, one: seq<Step>, two: seq<Step>,
                             j: string, r: nat)
    requires GatewayOnly(c, Init(workers), before + one) && GatewayOnly(c, Init(workers), before + two)
    requires j in Run(c, Init(workers), before).t.jobs
    requires r < |Run(c, Init(workers), before).t.rows| && Run(c, Init(workers), before).t.rows[r].body.jobId == Some(j)
    requires r < |Run(c, Init(workers), before + one).t.rows| && Terminal(Run(c, Init(workers), before + one).t.rows[r])
    requires r < |Run(c, Init(workers), before + two).t.rows| && Terminal(Run(c, Init(workers), before + two).t.rows[r])
    ensures j in Run(c, Init(workers), before + one).t.jobs && j in Run(c, Init(workers), before + two).t.jobs
    ensures Run(c, Init(workers), before + one).t.jobs[j] == Run(c, Init(workers), before + two).t.jobs[j]
  {
    var w := Run(c, Init(workers), before);
    QueueInvariant(c, workers, before);
    RunConcat(c, Init(workers), before, one);
    RunConcat(c, Init(workers), before, two);
    RunOnRow(c, w, one, r);
    RunOnRow(c, w, two, r);
    RetryRefinement(c, workers, before, one, j, r);
    RetryRefinement(c, workers, before, two, j, r);
  }
}
