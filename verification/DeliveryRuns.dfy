/**
 * Every run in which only the gateway publishes, and no tool runs for a submission before its second commit: any
 * number of workers, interleaved commit by commit, crashing anywhere. Queue row, job, idempotency key and handler runs
 * agree at every commit point.
 */
module DeliveryRuns {
  import opened Values
  import opened Tables
  import opened Catalog
  import opened LocalQueue
  import opened Gateway
  import opened Worker
  import opened Protocol
  import opened QueueRuns
  import opened OpenSubmissions

  /**
   * No message from elsewhere, no copy, and no run of the tool for a submission that is still open. The last is what
   * publishing before committing can break.
   */
  ghost predicate GatewayStep(c: Deployment, w: World, s: Step)
  {
    && !s.Publish? && !s.Republish?
    && (s.Work? && s.worker < |w.hands| && Busy(w.hands[s.worker]) && w.hands[s.worker].phase.RunTool? ==>
          forall j :: j in w.open ==> w.hands[s.worker].batch[w.hands[s.worker].pos].body.jobId != Some(j))
  }

  ghost predicate GatewayOnly(c: Deployment, w: World, steps: seq<Step>)
    decreases |steps|
  {
    steps == [] || (GatewayStep(c, w, steps[0]) && GatewayOnly(c, Apply(c, w, steps[0]), steps[1..]))
  }

  /** Schedules whose submissions are whole and that have no other publisher. */
  predicate Whole(steps: seq<Step>)
  {
    forall i :: 0 <= i < |steps| ==> !steps[i].Publish? && !steps[i].Republish? && !steps[i].Submit?
  }

  /** With whole submissions nothing is ever open, so the condition is met. */
  lemma {:induction false} WholeIsGatewayOnly(c: Deployment, w: World, steps: seq<Step>)
    requires Whole(steps) && w.open == map[]
    ensures GatewayOnly(c, w, steps) && Run(c, w, steps).open == map[]
    decreases |steps|
  {
    if steps != [] {
      NothingOpens(c, w, steps[0]);
      WholeIsGatewayOnly(c, Apply(c, w, steps[0]), steps[1..]);
    }
  }

  lemma NothingOpens(c: Deployment, w: World, s: Step)
    requires w.open == map[] && !s.Submit?
    ensures Apply(c, w, s).open == map[]
  {
  }

  lemma {:induction false} GatewayOnlyConcat(c: Deployment, w: World, a: seq<Step>, b: seq<Step>)
    ensures GatewayOnly(c, w, a + b) <==> GatewayOnly(c, w, a) && GatewayOnly(c, Run(c, w, a), b)
    decreases |a|
  {
    if a == [] {
      assert a + b == b;
    } else {
      assert (a + b)[0] == a[0] && (a + b)[1..] == a[1..] + b;
      GatewayOnlyConcat(c, Apply(c, w, a[0]), a[1..], b);
    }
  }

  // ---------------------------------------------------------------- the reference: try up to M' times

  /** The job as the gateway created it; the worker never changes the other fields. */
  function Pristine(job: Job): Job
  {
    job.(status := Queued, attempts := 0, result := None, errorCode := None, errorDetail := None)
  }

  function FailedJob(c: Deployment, job: Job, res: HandlerResult, attempt: nat): Job
    requires !res.Returned?
  {
    job.(status := if attempt >= c.maxDelivery then DeadLettered else Failed, attempts := attempt,
         errorCode := Some(ErrorCode(res)), errorDetail := Some(res.text))
  }

  /** Try the tool from `attempt` on: the first success ends it, and so does the last permitted failure. */
  function TryFrom(c: Deployment, row: nat, job: Job, attempt: nat): Job
    decreases if attempt < c.maxDelivery then c.maxDelivery - attempt else 0
  {
    var res := c.handler(row, attempt);
    if res.Returned? then job.(status := Succeeded, result := Some(res.output), attempts := attempt)
    else if attempt >= c.maxDelivery then FailedJob(c, job, res, attempt)
    else TryFrom(c, row, FailedJob(c, job, res, attempt), attempt + 1)
  }

  function Goal(c: Deployment, row: nat, job: Job): Job
  {
    TryFrom(c, row, Pristine(job), 1)
  }

  // ---------------------------------------------------------------- the invariant

  /** The handler runs under one idempotency key. */
  function RunsOf(runs: seq<HandlerRun>, key: string): seq<HandlerRun>
  {
    if runs == [] then []
    else
      var last := runs[|runs| - 1];
      RunsOf(runs[..|runs| - 1], key)
      + (if last.InWorker? && last.message.body.key == Some(key) then [last] else [])
  }

  /** The row's body names a job and a key that name each other. */
  predicate Linked(c: Deployment, t: Db, row: Row)
  {
    && row.queue == c.queue && row.body.tool in c.registry
    && row.body.jobId.Some? && row.body.key.Some? && row.body.key.value != ""
    && row.body.jobId.value in t.jobs && row.body.key.value in t.keys
    && t.keys[row.body.key.value].jobId == row.body.jobId.value
    && t.jobs[row.body.jobId.value].key == row.body.key.value
  }

  /** The message of a submission whose second commit is still to come: it names no job yet. */
  predicate Announced(c: Deployment, t: Db, row: Row)
  {
    && row.queue == c.queue && row.body.tool in c.registry
    && row.body.jobId.Some? && row.body.key.Some? && row.body.key.value != "" && row.body.jobId.value !in t.jobs
  }

  ghost predicate AllKnown(c: Deployment, t: Db)
  {
    && (forall r :: 0 <= r < |t.rows| ==> Linked(c, t, t.rows[r]) || Announced(c, t, t.rows[r]))
    && (forall r, s :: 0 <= r < |t.rows| && 0 <= s < |t.rows| && t.rows[r].body.jobId == t.rows[s].body.jobId ==>
          r == s)
  }

  /** Everything recorded about one row's delivery. */
  datatype Slice = Slice(row: Row, job: Job, key: KeyRow, runs: seq<HandlerRun>)

  function SliceOf(c: Deployment, t: Db, runs: seq<HandlerRun>, r: nat): Slice
    requires r < |t.rows| && Linked(c, t, t.rows[r])
  {
    var row := t.rows[r];
    Slice(row, t.jobs[row.body.jobId.value], t.keys[row.body.key.value], RunsOf(runs, row.body.key.value))
  }

  /** The handler ran for deliveries 1..n of the row, once each, in order. */
  predicate RanTimes(c: Deployment, r: nat, runs: seq<HandlerRun>, n: nat)
  {
    && |runs| == n
    && forall i :: 0 <= i < n ==>
         && runs[i].InWorker? && runs[i].message.handle == r && runs[i].message.deliveries == i + 1
         && runs[i].res == c.handler(r, i + 1)
  }

  predicate AllFault(c: Deployment, r: nat, n: nat)
  {
    forall a :: 1 <= a <= n ==> !c.handler(r, a).Returned?
  }

  function OpenStatus(deliveries: nat): JobStatus
  {
    if deliveries == 0 then Queued else Failed
  }

  /** A row waiting for its next delivery: every delivery so far ran and failed, and the rest is still to try. */
  predicate Waiting(c: Deployment, r: nat, s: Slice)
  {
    var d := s.row.deliveries;
    && !s.key.completed && AllFault(c, r, d) && RanTimes(c, r, s.runs, d)
    && s.job.status == OpenStatus(d) && s.job.attempts == d
    && TryFrom(c, r, s.job, d + 1) == Goal(c, r, s.job)
  }

  /** A row whose current delivery has reached `phase`. */
  predicate InPhase(c: Deployment, r: nat, s: Slice, phase: Phase)
  {
    var d := s.row.deliveries;
    && d >= 1 && AllFault(c, r, d - 1)
    && match phase
       case Guard => Undecided(c, r, s, d - 1) && s.job.status == OpenStatus(d - 1)
       case Mark => Undecided(c, r, s, d - 1) && s.job.status == OpenStatus(d - 1)
       case RunTool => Undecided(c, r, s, d - 1) && Started(s.job.status, d)
       case Record(res) => Undecided(c, r, s, d) && Started(s.job.status, d) && res == c.handler(r, d)
       case Settle(ok) => if ok then Won(c, r, s) else Lost(c, r, s)
       case _ => false
  }

  /** Marked as running; a mark that came before the job leaves no trace. */
  predicate Started(status: JobStatus, deliveries: nat)
    requires deliveries >= 1
  {
    status == Running || status == OpenStatus(deliveries - 1)
  }

  /** The outcome of the current delivery is not recorded yet; the handler has run `n` times. */
  predicate Undecided(c: Deployment, r: nat, s: Slice, n: nat)
  {
    !s.key.completed && RanTimes(c, r, s.runs, n) && TryFrom(c, r, s.job, s.row.deliveries) == Goal(c, r, s.job)
  }

  predicate Won(c: Deployment, r: nat, s: Slice)
  {
    && s.key.completed && c.handler(r, s.row.deliveries).Returned? && RanTimes(c, r, s.runs, s.row.deliveries)
    && s.job.status == Succeeded && s.job.attempts == s.row.deliveries
    && s.job == Goal(c, r, s.job) && s.key.result == s.job.result
  }

  predicate Lost(c: Deployment, r: nat, s: Slice)
  {
    var d := s.row.deliveries;
    && !s.key.completed && !c.handler(r, d).Returned? && RanTimes(c, r, s.runs, d)
    && s.job.attempts == d
    && (if d >= c.maxDelivery then s.job.status == DeadLettered && s.job == Goal(c, r, s.job)
        else s.job.status == Failed && TryFrom(c, r, s.job, d + 1) == Goal(c, r, s.job))
  }

  /** A delivery whose worker may have crashed stands where the worker left it. */
  predicate SomewherePending(c: Deployment, r: nat, s: Slice)
  {
    || InPhase(c, r, s, Guard) || InPhase(c, r, s, RunTool) || InPhase(c, r, s, Record(c.handler(r, s.row.deliveries)))
    || InPhase(c, r, s, Settle(true)) || InPhase(c, r, s, Settle(false))
  }

  predicate StageOk(c: Deployment, r: nat, s: Slice)
  {
    match s.row.status
    case Available => Waiting(c, r, s)
    case Locked => SomewherePending(c, r, s)
    case Completed => InPhase(c, r, s, Settle(true))
    case DeadLetter => InPhase(c, r, s, Settle(false)) && s.row.deliveries >= c.maxDelivery
  }

  /** An announced row was claimed at most once; it was completed only as a duplicate of a key that another took. */
  predicate AnnouncedRow(t: Db, row: Row)
    requires row.body.key.Some?
  {
    match row.status
    case Available => row.deliveries == 0
    case Locked => row.deliveries == 1
    case Completed => row.deliveries == 1 && row.body.key.value in t.keys
    case DeadLetter => false
  }

  /** How far a worker can have come with the message of an announced row. */
  predicate AnnouncedPhase(t: Db, row: Row, phase: Phase)
    requires row.body.key.Some?
  {
    match phase
    case Guard => true
    case Mark => true
    case RunTool => true
    case SettleDuplicate(_) => row.body.key.value in t.keys
    case NoteDuplicate(_) => row.body.key.value in t.keys
    case _ => false
  }

  ghost predicate DeliveryInv(c: Deployment, w: World)
  {
    && QueueInv(c, w)
    && OpenOk(c, w)
    && AllKnown(c, w.t)
    && OpenMatches(c, w)
    && RunsKnown(w)
    && StagesOk(c, w)
    && HandsOk(c, w)
  }

  /** The announced rows are the messages of the open submissions. */
  ghost predicate OpenMatches(c: Deployment, w: World)
  {
    forall r :: 0 <= r < |w.t.rows| && Announced(c, w.t, w.t.rows[r]) ==>
      && w.t.rows[r].body.jobId.value in w.open
      && var s := w.open[w.t.rows[r].body.jobId.value];
         w.t.rows[r].body == SubmissionBody(s.req, s.args, s.f)
  }

  predicate RowStage(c: Deployment, t: Db, runs: seq<HandlerRun>, r: nat)
    requires r < |t.rows|
  {
    && (Linked(c, t, t.rows[r]) ==> StageOk(c, r, SliceOf(c, t, runs, r)))
    && (Announced(c, t, t.rows[r]) ==> AnnouncedRow(t, t.rows[r]))
  }

  predicate RowPhase(c: Deployment, t: Db, runs: seq<HandlerRun>, r: nat, phase: Phase)
    requires r < |t.rows|
  {
    && (Linked(c, t, t.rows[r]) ==> InPhase(c, r, SliceOf(c, t, runs, r), phase))
    && (Announced(c, t, t.rows[r]) ==> AnnouncedPhase(t, t.rows[r], phase))
  }

  ghost predicate StagesOk(c: Deployment, w: World)
  {
    forall r: nat :: r < |w.t.rows| ==> RowStage(c, w.t, w.runs, r)
  }

  ghost predicate HandsOk(c: Deployment, w: World)
  {
    forall a: nat, p: nat :: InHand(w, a, p) ==> HandOk(c, w, a, p)
  }

  ghost predicate RunsKnown(w: World)
  {
    forall i :: 0 <= i < |w.runs| && w.runs[i].InWorker? ==>
      w.runs[i].message.body.key.Some? && w.runs[i].message.body.key.value in w.t.keys
  }

  predicate HandOk(c: Deployment, w: World, a: nat, p: nat)
    requires InHand(w, a, p)
  {
    var m := w.hands[a].batch[p];
    && m.handle < |w.t.rows|
    && RowPhase(c, w.t, w.runs, m.handle, if p == w.hands[a].pos then w.hands[a].phase else Guard)
  }

  // ---------------------------------------------------------------- rows do not disturb each other

  /** Distinct rows have distinct jobs, and distinct keys once both are linked. */
  lemma DistinctRows(c: Deployment, t: Db, r: nat, s: nat)
    requires AllKnown(c, t) && r < |t.rows| && s < |t.rows| && r != s
    ensures t.rows[r].body.jobId != t.rows[s].body.jobId
    ensures Linked(c, t, t.rows[r]) && Linked(c, t, t.rows[s]) ==> t.rows[r].body.key != t.rows[s].body.key
  {
  }

  lemma RunsOfAppend(runs: seq<HandlerRun>, run: HandlerRun, key: string)
    ensures RunsOf(runs + [run], key)
            == RunsOf(runs, key) + (if run.InWorker? && run.message.body.key == Some(key) then [run] else [])
  {
    assert (runs + [run])[..|runs|] == runs;
  }

  lemma {:induction false} NoRunsYet(runs: seq<HandlerRun>, key: string)
    requires forall i :: 0 <= i < |runs| && runs[i].InWorker? ==> runs[i].message.body.key != Some(key)
    ensures RunsOf(runs, key) == []
  {
    if runs != [] {
      NoRunsYet(runs[..|runs| - 1], key);
    }
  }

  /** Commits keep who is linked to whom. */
  ghost predicate SameLinks(t: Db, u: Db)
  {
    && |u.rows| == |t.rows|
    && (forall r :: 0 <= r < |t.rows| ==> u.rows[r].body == t.rows[r].body && u.rows[r].queue == t.rows[r].queue)
    && u.jobs.Keys == t.jobs.Keys && u.keys.Keys == t.keys.Keys
    && (forall j :: j in t.jobs ==> Pristine(u.jobs[j]) == Pristine(t.jobs[j]))
    && (forall k :: k in t.keys ==> u.keys[k].jobId == t.keys[k].jobId)
  }

  lemma LinkSurvives(c: Deployment, t: Db, u: Db, r: nat)
    requires r < |t.rows| && SameLinks(t, u)
    ensures Linked(c, t, t.rows[r]) <==> Linked(c, u, u.rows[r])
    ensures Announced(c, t, t.rows[r]) <==> Announced(c, u, u.rows[r])
  {
    if t.rows[r].body.jobId.Some? && t.rows[r].body.jobId.value in t.jobs {
      var j := t.rows[r].body.jobId.value;
      assert Pristine(u.jobs[j]).key == Pristine(t.jobs[j]).key;
    }
  }

  lemma LinksSurvive(c: Deployment, t: Db, u: Db)
    requires AllKnown(c, t) && SameLinks(t, u)
    ensures AllKnown(c, u)
    ensures forall r :: 0 <= r < |t.rows| ==> (Linked(c, t, t.rows[r]) <==> Linked(c, u, u.rows[r]))
    ensures forall r :: 0 <= r < |t.rows| ==> (Announced(c, t, t.rows[r]) <==> Announced(c, u, u.rows[r]))
  {
    hide Linked; hide Announced;
    forall r: nat | r < |u.rows|
      ensures Linked(c, t, t.rows[r]) <==> Linked(c, u, u.rows[r])
      ensures Announced(c, t, t.rows[r]) <==> Announced(c, u, u.rows[r])
    {
      LinkSurvives(c, t, u, r);
    }
  }

  lemma SetJobFrame(jobs: map<string, Job>, jobId: Option<string>, status: JobStatus, result: Option<Dict>,
                    code: Option<string>, detail: Option<string>, attempts: Option<nat>)
    ensures var after := SetJob(jobs, jobId, status, result, code, detail, attempts);
            && after.Keys == jobs.Keys
            && forall j :: j in jobs ==>
                 Pristine(after[j]) == Pristine(jobs[j]) && (Some(j) != jobId ==> after[j] == jobs[j])
  {
  }

  lemma JobsFrame(c: Deployment, t: Db, msg: Message, phase: Phase, now: int)
    ensures var jobs := Commit(c, t, msg, phase, now).db.jobs;
            && jobs.Keys == t.jobs.Keys
            && forall j :: j in jobs ==>
                 Pristine(jobs[j]) == Pristine(t.jobs[j]) && (Some(j) != msg.body.jobId ==> jobs[j] == t.jobs[j])
  {
    match phase
    case Mark => SetJobFrame(t.jobs, msg.body.jobId, Running, None, None, None, Some(msg.deliveries));
    case Record(res) =>
      if res.Returned? {
        SetJobFrame(t.jobs, msg.body.jobId, Succeeded, Some(res.output), None, None, Some(msg.deliveries));
      } else {
        SetJobFrame(t.jobs, msg.body.jobId, if WillDeadLetter(c, msg) then DeadLettered else Failed, None,
          Some(ErrorCode(res)), Some(res.text), Some(msg.deliveries));
      }
    case RejectUnknown =>
      SetJobFrame(t.jobs, msg.body.jobId, DeadLettered, None, Some("UNKNOWN_TOOL"),
        Some("tool " + msg.body.tool + " not registered"), None);
    case NoteDuplicate(result) => SetJobFrame(t.jobs, msg.body.jobId, Succeeded, Some(result), None, None, None);
    case _ =>
  }

  lemma KeysFrame(c: Deployment, t: Db, msg: Message, phase: Phase, now: int)
    ensures var keys := Commit(c, t, msg, phase, now).db.keys;
            && keys.Keys == t.keys.Keys
            && (forall k :: k in keys ==>
                  keys[k].jobId == t.keys[k].jobId && (Some(k) != msg.body.key ==> keys[k] == t.keys[k]))
            && (!phase.Record? ==> keys == t.keys)
  {
  }

  lemma CommitSameLinks(c: Deployment, t: Db, msg: Message, phase: Phase, now: int)
    requires msg.handle < |t.rows|
    ensures SameLinks(t, Commit(c, t, msg, phase, now).db)
  {
    CommitTouchesOneRow(c, t, msg, phase, now);
    JobsFrame(c, t, msg, phase, now);
    KeysFrame(c, t, msg, phase, now);
  }

  /** A commit keeps who is linked. */
  lemma CommitKeepsLinks(c: Deployment, t: Db, msg: Message, phase: Phase, now: int)
    requires AllKnown(c, t) && msg.handle < |t.rows|
    ensures var u := Commit(c, t, msg, phase, now).db;
            && AllKnown(c, u) && SameLinks(t, u)
            && (forall r :: 0 <= r < |t.rows| ==> (Linked(c, t, t.rows[r]) <==> Linked(c, u, u.rows[r])))
            && (forall r :: 0 <= r < |t.rows| ==> (Announced(c, t, t.rows[r]) <==> Announced(c, u, u.rows[r])))
  {
    CommitSameLinks(c, t, msg, phase, now);
    LinksSurvive(c, t, Commit(c, t, msg, phase, now).db);
  }

  /** A commit on a linked row changes the slice of that row only. */
  lemma CommitElsewhere(c: Deployment, t: Db, runs: seq<HandlerRun>, msg: Message, phase: Phase, now: int, r: nat)
    requires AllKnown(c, t) && msg.handle < |t.rows| && t.rows[msg.handle].body == msg.body
    requires Linked(c, t, t.rows[msg.handle]) && r < |t.rows| && r != msg.handle && Linked(c, t, t.rows[r])
    ensures var u := Commit(c, t, msg, phase, now).db;
            && r < |u.rows| && Linked(c, u, u.rows[r])
            && SliceOf(c, u, RunsAfter(c, runs, msg, phase), r) == SliceOf(c, t, runs, r)
  {
    CommitKeepsLinks(c, t, msg, phase, now);
    CommitTouchesOneRow(c, t, msg, phase, now);
    JobsFrame(c, t, msg, phase, now);
    KeysFrame(c, t, msg, phase, now);
    DistinctRows(c, t, r, msg.handle);
    hide Commit;
    if phase.RunTool? {
      RunsOfAppend(runs, InWorker(msg.body.tool, msg.body.arguments, msg, c.handler(msg.handle, msg.deliveries)),
        t.rows[r].body.key.value);
    }
  }

  /** A commit on an announced row, short of a run, changes no job, no key, no run and no other row. */
  lemma CommitOnAnnounced(c: Deployment, t: Db, msg: Message, phase: Phase, now: int)
    requires msg.handle < |t.rows| && t.rows[msg.handle].body == msg.body
    requires t.rows[msg.handle].status == Locked || phase.NoteDuplicate?
    requires Announced(c, t, t.rows[msg.handle]) && AnnouncedRow(t, t.rows[msg.handle])
    requires AnnouncedPhase(t, t.rows[msg.handle], phase) && !phase.RunTool?
    ensures var turn := Commit(c, t, msg, phase, now);
            && turn.db.jobs == t.jobs && turn.db.keys == t.keys && |turn.db.rows| == |t.rows|
            && (forall r :: 0 <= r < |t.rows| && r != msg.handle ==> turn.db.rows[r] == t.rows[r])
            && turn.db.rows[msg.handle].body == msg.body
            && AnnouncedRow(t, turn.db.rows[msg.handle])
            && (turn.next.Some? ==> AnnouncedPhase(t, t.rows[msg.handle], turn.next.value))
  {
  }

  // ---------------------------------------------------------------- the row at hand

  /** The verdict does not depend on the status and the count of attempts it starts from. */
  lemma TryIgnoresProgress(c: Deployment, r: nat, job: Job, status: JobStatus, attempts: nat, a: nat)
    ensures TryFrom(c, r, job.(status := status, attempts := attempts), a) == TryFrom(c, r, job, a)
    ensures Goal(c, r, job.(status := status, attempts := attempts)) == Goal(c, r, job)
  {
  }

  /** The slice after a commit on its row. */
  function SliceCommit(c: Deployment, s: Slice, msg: Message, phase: Phase, now: int): Slice
  {
    match phase
    case Mark => s.(job := s.job.(status := Running, attempts := msg.deliveries))
    case RunTool =>
      s.(runs := s.runs + [InWorker(msg.body.tool, msg.body.arguments, msg, c.handler(msg.handle, msg.deliveries))])
    case Record(res) =>
      if res.Returned? then
        s.(job := s.job.(status := Succeeded, result := Some(res.output), attempts := msg.deliveries),
           key := s.key.(completed := true, result := Some(res.output)))
      else s.(job := FailedJob(c, s.job, res, msg.deliveries))
    case Settle(ok) => s.(row := if ok then CompleteRow(s.row) else AbandonRow(s.row, c.maxDelivery, now))
    case _ => s
  }

  lemma CommitHere(c: Deployment, t: Db, runs: seq<HandlerRun>, msg: Message, phase: Phase, now: int)
    requires AllKnown(c, t) && msg.handle < |t.rows| && t.rows[msg.handle].body == msg.body
    requires Linked(c, t, t.rows[msg.handle]) && InPhase(c, msg.handle, SliceOf(c, t, runs, msg.handle), phase)
    ensures var u := Commit(c, t, msg, phase, now).db;
            && msg.handle < |u.rows| && Linked(c, u, u.rows[msg.handle])
            && SliceOf(c, u, RunsAfter(c, runs, msg, phase), msg.handle)
               == SliceCommit(c, SliceOf(c, t, runs, msg.handle), msg, phase, now)
  {
    hide TryFrom; hide Goal; hide Pristine; hide Announced; hide AllKnown;
    var u := Commit(c, t, msg, phase, now).db;
    CommitKeepsLinks(c, t, msg, phase, now);
    assert Linked(c, u, u.rows[msg.handle]);
    if phase.RunTool? {
      RunsOfAppend(runs, InWorker(msg.body.tool, msg.body.arguments, msg, c.handler(msg.handle, msg.deliveries)),
        msg.body.key.value);
    }
  }

  lemma NextPhase(c: Deployment, t: Db, runs: seq<HandlerRun>, msg: Message, phase: Phase, now: int)
    requires msg.handle < |t.rows| && t.rows[msg.handle].body == msg.body
    requires Linked(c, t, t.rows[msg.handle]) && InPhase(c, msg.handle, SliceOf(c, t, runs, msg.handle), phase)
    ensures Commit(c, t, msg, phase, now).next
            == (match phase
                case Guard => Some(Mark)
                case Mark => Some(RunTool)
                case RunTool => Some(Record(c.handler(msg.handle, msg.deliveries)))
                case Record(res) => Some(Settle(res.Returned?))
                case _ => None)
  {
  }

  lemma BeforeTheRun(c: Deployment, r: nat, s: Slice, msg: Message, phase: Phase, now: int)
    requires InPhase(c, r, s, phase) && (phase == Guard || phase == Mark || phase == RunTool)
    requires msg.handle == r && msg.deliveries == s.row.deliveries
    ensures InPhase(c, r, SliceCommit(c, s, msg, phase, now),
                    if phase == Guard then Mark
                    else if phase == Mark then RunTool else Record(c.handler(r, msg.deliveries)))
  {
    TryIgnoresProgress(c, r, s.job, Running, msg.deliveries, msg.deliveries);
  }

  lemma AtTheRecord(c: Deployment, r: nat, s: Slice, msg: Message, res: HandlerResult, now: int)
    requires InPhase(c, r, s, Record(res)) && msg.deliveries == s.row.deliveries
    ensures InPhase(c, r, SliceCommit(c, s, msg, Record(res), now), Settle(res.Returned?))
  {
    assert Pristine(SliceCommit(c, s, msg, Record(res), now).job) == Pristine(s.job);
  }

  lemma AtTheSettle(c: Deployment, r: nat, s: Slice, msg: Message, ok: bool, now: int)
    requires InPhase(c, r, s, Settle(ok)) && s.row.deliveries <= Bound(c)
    ensures var u := SliceCommit(c, s, msg, Settle(ok), now);
            u.row.status != Locked && StageOk(c, r, u)
  {
  }

  /** Where the row stands after its worker's commit. */
  lemma SliceStep(c: Deployment, r: nat, s: Slice, msg: Message, phase: Phase, now: int)
    requires InPhase(c, r, s, phase) && msg.handle == r && msg.deliveries == s.row.deliveries <= Bound(c)
    ensures var u := SliceCommit(c, s, msg, phase, now);
            match phase
            case Guard => InPhase(c, r, u, Mark)
            case Mark => InPhase(c, r, u, RunTool)
            case RunTool => InPhase(c, r, u, Record(c.handler(r, msg.deliveries)))
            case Record(res) => InPhase(c, r, u, Settle(res.Returned?))
            case _ => u.row.status != Locked && StageOk(c, r, u)
  {
    match phase
    case Record(res) => AtTheRecord(c, r, s, msg, res, now);
    case Settle(ok) => AtTheSettle(c, r, s, msg, ok, now);
    case _ => BeforeTheRun(c, r, s, msg, phase, now);
  }

  lemma PendingPhase(c: Deployment, r: nat, s: Slice, phase: Phase)
    requires InPhase(c, r, s, phase)
    ensures SomewherePending(c, r, s)
  {
  }

  /** The phase a message is in after its worker's commit, or how its row was settled. */
  lemma HereAfter(c: Deployment, t: Db, runs: seq<HandlerRun>, msg: Message, phase: Phase, now: int)
    requires AllKnown(c, t) && msg.handle < |t.rows| && t.rows[msg.handle].body == msg.body
    requires msg.deliveries == t.rows[msg.handle].deliveries <= Bound(c)
    requires Linked(c, t, t.rows[msg.handle]) && InPhase(c, msg.handle, SliceOf(c, t, runs, msg.handle), phase)
    requires t.rows[msg.handle].status == Locked
    ensures var turn := Commit(c, t, msg, phase, now);
            && msg.handle < |turn.db.rows| && Linked(c, turn.db, turn.db.rows[msg.handle])
            && (turn.next.Some? ==>
                  && turn.db.rows[msg.handle].status == Locked
                  && InPhase(c, msg.handle, SliceOf(c, turn.db, RunsAfter(c, runs, msg, phase), msg.handle),
                             turn.next.value))
            && StageOk(c, msg.handle, SliceOf(c, turn.db, RunsAfter(c, runs, msg, phase), msg.handle))
  {
    CommitHere(c, t, runs, msg, phase, now);
    NextPhase(c, t, runs, msg, phase, now);
    var s := SliceOf(c, t, runs, msg.handle);
    SliceStep(c, msg.handle, s, msg, phase, now);
    var turn := Commit(c, t, msg, phase, now);
    if turn.next.Some? {
      PendingPhase(c, msg.handle, SliceCommit(c, s, msg, phase, now), turn.next.value);
    }
  }

  // ---------------------------------------------------------------- a commit of a worker

  /** Where a row stands after a commit on a linked row. */
  lemma RowAfterLinked(c: Deployment, t: Db, runs: seq<HandlerRun>, msg: Message, phase: Phase, now: int, r: nat)
    requires AllKnown(c, t) && msg.handle < |t.rows| && t.rows[msg.handle].body == msg.body
    requires msg.deliveries == t.rows[msg.handle].deliveries <= Bound(c) && t.rows[msg.handle].status == Locked
    requires Linked(c, t, t.rows[msg.handle]) && InPhase(c, msg.handle, SliceOf(c, t, runs, msg.handle), phase)
    requires r < |t.rows| && RowStage(c, t, runs, r)
    ensures var turn := Commit(c, t, msg, phase, now);
            r < |turn.db.rows| && RowStage(c, turn.db, RunsAfter(c, runs, msg, phase), r)
  {
    var turn := Commit(c, t, msg, phase, now);
    CommitKeepsLinks(c, t, msg, phase, now);
    CommitTouchesOneRow(c, t, msg, phase, now);
    KeysFrame(c, t, msg, phase, now);
    if r == msg.handle {
      HereAfter(c, t, runs, msg, phase, now);
    } else if Linked(c, t, t.rows[r]) {
      CommitElsewhere(c, t, runs, msg, phase, now, r);
    }
    hide Commit; hide StageOk; hide InPhase; hide Linked;
  }

  lemma PhaseAfterLinked(c: Deployment, t: Db, runs: seq<HandlerRun>, msg: Message, phase: Phase, now: int,
                         r: nat, other: Phase)
    requires AllKnown(c, t) && msg.handle < |t.rows| && t.rows[msg.handle].body == msg.body
    requires Linked(c, t, t.rows[msg.handle]) && r < |t.rows| && r != msg.handle && RowPhase(c, t, runs, r, other)
    ensures var turn := Commit(c, t, msg, phase, now);
            r < |turn.db.rows| && RowPhase(c, turn.db, RunsAfter(c, runs, msg, phase), r, other)
  {
    CommitKeepsLinks(c, t, msg, phase, now);
    CommitTouchesOneRow(c, t, msg, phase, now);
    KeysFrame(c, t, msg, phase, now);
    if Linked(c, t, t.rows[r]) {
      CommitElsewhere(c, t, runs, msg, phase, now, r);
    }
    hide Commit; hide InPhase; hide Linked;
  }

  /** What the worker at hand relies on. */
  ghost predicate AtHand(c: Deployment, w: World, i: nat)
  {
    && AllKnown(c, w.t) && i < |w.hands| && Busy(w.hands[i]) && InHand(w, i, w.hands[i].pos)
    && HandOk(c, w, i, w.hands[i].pos) && HoldsRow(c, w.t.rows, w.hands[i], w.hands[i].pos)
    && w.t.rows[w.hands[i].batch[w.hands[i].pos].handle].deliveries <= Bound(c)
    && RowStage(c, w.t, w.runs, w.hands[i].batch[w.hands[i].pos].handle)
  }

  lemma HandIsAtHand(c: Deployment, w: World, i: nat)
    requires DeliveryInv(c, w) && i < |w.hands| && Busy(w.hands[i])
    ensures AtHand(c, w, i)
  {
    var h := w.hands[i];
    assert InHand(w, i, h.pos) && HoldsRow(c, w.t.rows, h, h.pos) && HandOk(c, w, i, h.pos);
    assert RowOk(c, w.t.rows[h.batch[h.pos].handle], w.clock);
  }

  /** A linked row at hand is locked: it is never taken for a duplicate. */
  lemma LinkedIsLocked(c: Deployment, w: World, i: nat)
    requires AtHand(c, w, i) && Linked(c, w.t, w.t.rows[w.hands[i].batch[w.hands[i].pos].handle])
    ensures w.t.rows[w.hands[i].batch[w.hands[i].pos].handle].status == Locked
  {
  }

  /** A row that is known and not linked is announced, and the tool does not run for it. */
  ghost predicate MayWork(c: Deployment, w: World, i: nat)
    requires AtHand(c, w, i)
  {
    w.hands[i].phase.RunTool? ==> Linked(c, w.t, w.t.rows[w.hands[i].batch[w.hands[i].pos].handle])
  }

  lemma AnnouncedCommit(c: Deployment, w: World, i: nat)
    requires AtHand(c, w, i) && MayWork(c, w, i)
    requires !Linked(c, w.t, w.t.rows[w.hands[i].batch[w.hands[i].pos].handle])
    ensures var h := w.hands[i];
            var msg := h.batch[h.pos];
            var turn := Commit(c, w.t, msg, h.phase, w.clock);
            && AfterWork(c, w, i).runs == w.runs && Announced(c, w.t, w.t.rows[msg.handle])
            && turn.db.jobs == w.t.jobs && turn.db.keys == w.t.keys && |turn.db.rows| == |w.t.rows|
            && (forall r :: 0 <= r < |w.t.rows| && r != msg.handle ==> turn.db.rows[r] == w.t.rows[r])
            && turn.db.rows[msg.handle].body == msg.body && AnnouncedRow(w.t, turn.db.rows[msg.handle])
            && (turn.next.Some? ==> AnnouncedPhase(w.t, w.t.rows[msg.handle], turn.next.value))
  {
    var h := w.hands[i];
    CommitOnAnnounced(c, w.t, h.batch[h.pos], h.phase, w.clock);
  }

  lemma WorkKeepsStages(c: Deployment, w: World, i: nat)
    requires AtHand(c, w, i) && MayWork(c, w, i) && StagesOk(c, w)
    ensures StagesOk(c, AfterWork(c, w, i))
  {
    var v := AfterWork(c, w, i);
    var h := w.hands[i];
    var msg := h.batch[h.pos];
    CommitTouchesOneRow(c, w.t, msg, h.phase, w.clock);
    if Linked(c, w.t, w.t.rows[msg.handle]) {
      LinkedIsLocked(c, w, i);
      forall r: nat | r < |v.t.rows| ensures RowStage(c, v.t, v.runs, r) {
        assert RowStage(c, w.t, w.runs, r);
        RowAfterLinked(c, w.t, w.runs, msg, h.phase, w.clock, r);
      }
    } else {
      AnnouncedCommit(c, w, i);
      CommitKeepsLinks(c, w.t, msg, h.phase, w.clock);
      hide Commit; hide StageOk;
      forall r: nat | r < |v.t.rows| ensures RowStage(c, v.t, v.runs, r) {
        assert RowStage(c, w.t, w.runs, r);
      }
    }
  }

  /** The worker's own hand after its commit. */
  lemma OwnHand(c: Deployment, w: World, i: nat)
    requires AtHand(c, w, i) && MayWork(c, w, i)
    ensures var v, h := AfterWork(c, w, i), w.hands[i];
            && h.batch[h.pos].handle < |v.t.rows|
            && (v.hands[i].pos == h.pos ==> RowPhase(c, v.t, v.runs, h.batch[h.pos].handle, v.hands[i].phase))
  {
    var h := w.hands[i];
    var msg := h.batch[h.pos];
    CommitKeepsLinks(c, w.t, msg, h.phase, w.clock);
    if Linked(c, w.t, w.t.rows[msg.handle]) {
      LinkedIsLocked(c, w, i);
      HereAfter(c, w.t, w.runs, msg, h.phase, w.clock);
    } else {
      AnnouncedCommit(c, w, i);
    }
    hide Commit; hide InPhase; hide StageOk; hide Linked;
  }

  /** A message of another row after the commit. */
  lemma OtherHand(c: Deployment, w: World, i: nat, r: nat, phase: Phase)
    requires AtHand(c, w, i) && MayWork(c, w, i)
    requires r < |w.t.rows| && r != w.hands[i].batch[w.hands[i].pos].handle && RowPhase(c, w.t, w.runs, r, phase)
    ensures var v := AfterWork(c, w, i);
            r < |v.t.rows| && RowPhase(c, v.t, v.runs, r, phase)
  {
    var h := w.hands[i];
    var msg := h.batch[h.pos];
    if Linked(c, w.t, w.t.rows[msg.handle]) {
      PhaseAfterLinked(c, w.t, w.runs, msg, h.phase, w.clock, r, phase);
    } else {
      AnnouncedCommit(c, w, i);
      CommitKeepsLinks(c, w.t, msg, h.phase, w.clock);
    }
    hide Commit; hide InPhase;
  }

  lemma WorkKeepsHands(c: Deployment, w: World, i: nat)
    requires AtHand(c, w, i) && MayWork(c, w, i) && HandsOk(c, w) && Exclusive(w)
    ensures HandsOk(c, AfterWork(c, w, i))
  {
    hide Commit; hide RunsAfter; hide RowPhase; hide AllKnown; hide MayWork;
    var v := AfterWork(c, w, i);
    var h := w.hands[i];
    OwnHand(c, w, i);
    forall a: nat, p: nat | InHand(v, a, p) ensures HandOk(c, v, a, p) {
      assert InHand(w, a, p) && HandOk(c, w, a, p) && v.hands[a].batch == w.hands[a].batch;
      assert InHand(w, i, h.pos);
      var m := w.hands[a].batch[p];
      if m.handle != h.batch[h.pos].handle {
        OtherHand(c, w, i, m.handle, if p == w.hands[a].pos then w.hands[a].phase else Guard);
      }
    }
  }

  lemma WorkKeepsRunsKnown(c: Deployment, w: World, i: nat)
    requires RunsKnown(w) && AtHand(c, w, i) && MayWork(c, w, i)
    ensures RunsKnown(AfterWork(c, w, i))
  {
    var h := w.hands[i];
    KeysFrame(c, w.t, h.batch[h.pos], h.phase, w.clock);
    hide Commit;
  }

  lemma WorkKeepsOpenMatches(c: Deployment, w: World, i: nat)
    requires AtHand(c, w, i) && OpenMatches(c, w)
    ensures OpenMatches(c, AfterWork(c, w, i)) && AllKnown(c, AfterWork(c, w, i).t)
  {
    var h := w.hands[i];
    CommitKeepsLinks(c, w.t, h.batch[h.pos], h.phase, w.clock);
    hide Commit; hide Announced; hide Linked;
  }

  /** A message whose submission is not open belongs to a linked row. */
  lemma CommittedIsLinked(c: Deployment, w: World, i: nat)
    requires DeliveryInv(c, w) && i < |w.hands| && Busy(w.hands[i]) && GatewayStep(c, w, Work(i))
    ensures AtHand(c, w, i) && MayWork(c, w, i)
  {
    HandIsAtHand(c, w, i);
  }

  lemma WorkKeepsDelivery(c: Deployment, w: World, i: nat)
    requires DeliveryInv(c, w) && i < |w.hands| && Busy(w.hands[i]) && GatewayStep(c, w, Work(i))
    ensures DeliveryInv(c, AfterWork(c, w, i))
  {
    CommittedIsLinked(c, w, i);
    assert AfterWork(c, w, i) == Apply(c, w, Work(i));
    hide AtHand; hide MayWork; hide AfterWork; hide OpenOk; hide QueueInv; hide AllKnown; hide StagesOk; hide HandsOk;
    WorkingKeeps(c, w, i);
    StepKeepsOpen(c, w, Work(i));
    WorkKeepsOpenMatches(c, w, i);
    WorkKeepsRunsKnown(c, w, i);
    WorkKeepsStages(c, w, i);
    HandsAreExclusive(c, w);
    WorkKeepsHands(c, w, i);
  }

  lemma HandsAreExclusive(c: Deployment, w: World)
    requires QueueInv(c, w)
    ensures Exclusive(w)
  {
  }

  // ---------------------------------------------------------------- the other steps

  lemma ClaimStage(c: Deployment, r: nat, s: Slice, now: int, timeout: int)
    requires Waiting(c, r, s)
    ensures InPhase(c, r, s.(row := ClaimRow(s.row, now, timeout)), Guard)
  {
  }

  /** A claimed row, linked or announced, stands before the guard. */
  lemma ClaimRowStage(c: Deployment, t: Db, u: Db, runs: seq<HandlerRun>, r: nat, now: int, timeout: int)
    requires r < |t.rows| == |u.rows| && RowStage(c, t, runs, r) && t.rows[r].status == Available
    requires u.rows[r] == ClaimRow(t.rows[r], now, timeout) && u.jobs == t.jobs && u.keys == t.keys
    ensures RowStage(c, u, runs, r) && RowPhase(c, u, runs, r, Guard)
  {
    if Linked(c, t, t.rows[r]) {
      ClaimStage(c, r, SliceOf(c, t, runs, r), now, timeout);
    }
  }

  lemma SameRowStage(c: Deployment, t: Db, u: Db, runs: seq<HandlerRun>, r: nat)
    requires r < |t.rows| == |u.rows| && u.rows[r] == t.rows[r] && u.jobs == t.jobs && u.keys == t.keys
    ensures RowStage(c, t, runs, r) ==> RowStage(c, u, runs, r)
  {
    hide StageOk;
  }

  lemma ClaimKeepsLinks(c: Deployment, w: World, i: nat, max: nat, timeout: int)
    requires i < |w.hands|
    ensures var v := AfterReceive(c, w, i, max, timeout);
            SameLinks(w.t, v.t) && v.open == w.open
  {
    hide Selected; hide Pristine;
  }

  lemma OpenMatchesStay(c: Deployment, w: World, v: World)
    requires OpenMatches(c, w) && v.open == w.open && |v.t.rows| == |w.t.rows|
    requires forall r :: 0 <= r < |w.t.rows| ==> v.t.rows[r].body == w.t.rows[r].body
    requires forall r :: 0 <= r < |w.t.rows| ==> (Announced(c, w.t, w.t.rows[r]) <==> Announced(c, v.t, v.t.rows[r]))
    ensures OpenMatches(c, v)
  {
    hide Announced;
  }

  lemma ReceiveKeepsKnown(c: Deployment, w: World, i: nat, max: nat, timeout: int)
    requires AllKnown(c, w.t) && OpenMatches(c, w) && i < |w.hands|
    ensures var v := AfterReceive(c, w, i, max, timeout);
            AllKnown(c, v.t) && OpenMatches(c, v)
  {
    hide Linked; hide Announced; hide AfterReceive; hide AllKnown; hide OpenMatches;
    ClaimKeepsLinks(c, w, i, max, timeout);
    LinksSurvive(c, w.t, AfterReceive(c, w, i, max, timeout).t);
    OpenMatchesStay(c, w, AfterReceive(c, w, i, max, timeout));
  }

  lemma ReceiveKeepsStages(c: Deployment, w: World, i: nat, max: nat, timeout: int)
    requires StagesOk(c, w) && i < |w.hands|
    ensures var v := AfterReceive(c, w, i, max, timeout);
            && StagesOk(c, v)
            && forall r: nat :: r in Selected(w.t.rows, c.queue, w.clock, max) ==>
                 r < |v.t.rows| && RowPhase(c, v.t, v.runs, r, Guard)
  {
    hide RowStage; hide RowPhase; hide Selected;
    var v := AfterReceive(c, w, i, max, timeout);
    var ids := Selected(w.t.rows, c.queue, w.clock, max);
    SelectedExact(w.t.rows, c.queue, w.clock, max);
    forall r: nat | r < |v.t.rows|
      ensures RowStage(c, v.t, v.runs, r)
      ensures r in ids ==> RowPhase(c, v.t, v.runs, r, Guard)
    {
      assert RowStage(c, w.t, w.runs, r);
      if r in ids {
        ClaimRowStage(c, w.t, v.t, w.runs, r, w.clock, timeout);
      } else {
        SameRowStage(c, w.t, v.t, w.runs, r);
      }
    }
  }

  lemma ReceiveKeepsHands(c: Deployment, w: World, i: nat, max: nat, timeout: int)
    requires HandsOk(c, w) && QueueInv(c, w) && i < |w.hands| && !Busy(w.hands[i])
    requires forall r: nat :: r in Selected(w.t.rows, c.queue, w.clock, max) ==>
               r < |AfterReceive(c, w, i, max, timeout).t.rows|
               && RowPhase(c, AfterReceive(c, w, i, max, timeout).t, w.runs, r, Guard)
    ensures HandsOk(c, AfterReceive(c, w, i, max, timeout))
  {
    var v := AfterReceive(c, w, i, max, timeout);
    var ids := Selected(w.t.rows, c.queue, w.clock, max);
    SelectedExact(w.t.rows, c.queue, w.clock, max);
    forall a: nat, p: nat | InHand(v, a, p) ensures HandOk(c, v, a, p) {
      if a == i {
        assert v.hands[i].batch[p].handle == ids[p] && ids[p] in ids;
      } else {
        assert InHand(w, a, p) && HandOk(c, w, a, p) && HoldsRow(c, w.t.rows, w.hands[a], p);
      }
    }
  }

  lemma ReceiveKeepsDelivery(c: Deployment, w: World, i: nat, max: nat, timeout: int)
    requires DeliveryInv(c, w) && i < |w.hands| && !Busy(w.hands[i])
    ensures DeliveryInv(c, AfterReceive(c, w, i, max, timeout))
  {
    ReceivingKeeps(c, w, i, max, timeout);
    ReceiveKeepsKnown(c, w, i, max, timeout);
    ReceiveKeepsStages(c, w, i, max, timeout);
    ReceiveKeepsHands(c, w, i, max, timeout);
    assert AfterReceive(c, w, i, max, timeout) == Apply(c, w, Receive(i, max, timeout));
    StepKeepsOpen(c, w, Receive(i, max, timeout));
    hide QueueInv; hide OpenOk; hide AllKnown; hide OpenMatches; hide StagesOk; hide HandsOk; hide Received;
  }

  lemma CrashKeepsHands(c: Deployment, w: World, i: nat)
    requires HandsOk(c, w)
    ensures HandsOk(c, Apply(c, w, Crash(i)))
  {
    hide RowPhase;
    var v := Apply(c, w, Crash(i));
    forall a: nat, p: nat | InHand(v, a, p) ensures HandOk(c, v, a, p) {
      assert InHand(w, a, p) && HandOk(c, w, a, p);
    }
  }

  lemma CrashKeepsDelivery(c: Deployment, w: World, i: nat)
    requires DeliveryInv(c, w) && i < |w.hands|
    ensures DeliveryInv(c, Apply(c, w, Crash(i)))
  {
    hide QueueInv; hide OpenOk; hide AllKnown; hide HandsOk; hide RowStage; hide Announced;
    CrashingKeeps(c, w, i);
    StepKeepsOpen(c, w, Crash(i));
    CrashKeepsHands(c, w, i);
  }

  /** Equal tables and equal runs under each key mean equal stages. */
  lemma SameStage(c: Deployment, t: Db, u: Db, a: seq<HandlerRun>, b: seq<HandlerRun>, r: nat, phase: Phase)
    requires r < |t.rows| && u.rows == t.rows && u.jobs == t.jobs && u.keys == t.keys
    requires forall key :: RunsOf(b, key) == RunsOf(a, key)
    ensures RowStage(c, t, a, r) ==> RowStage(c, u, b, r)
    ensures RowPhase(c, t, a, r, phase) ==> RowPhase(c, u, b, r, phase)
  {
    hide StageOk; hide InPhase; hide RunsOf;
    if Linked(c, t, t.rows[r]) {
      assert SliceOf(c, u, b, r) == SliceOf(c, t, a, r);
    }
  }

  lemma SameRunsOfKeys(w: World, v: World)
    requires v.runs == w.runs || exists id, tool, args, res :: v.runs == w.runs + [InGateway(id, tool, args, res)]
    ensures forall key :: RunsOf(v.runs, key) == RunsOf(w.runs, key)
    ensures v.t.keys == w.t.keys && RunsKnown(w) ==> RunsKnown(v)
  {
    forall key ensures RunsOf(v.runs, key) == RunsOf(w.runs, key) {
      if v.runs != w.runs {
        RunsOfAppend(w.runs, v.runs[|w.runs|], key);
      }
    }
  }

  /** Steps that leave rows, jobs, keys and worker runs alone. */
  lemma QuietKeepsDelivery(c: Deployment, w: World, v: World)
    requires DeliveryInv(c, w) && QueueInv(c, v) && OpenOk(c, v) && v.open == w.open
    requires v.t.rows == w.t.rows && v.t.jobs == w.t.jobs && v.t.keys == w.t.keys && v.hands == w.hands
    requires v.runs == w.runs || exists id, tool, args, res :: v.runs == w.runs + [InGateway(id, tool, args, res)]
    ensures DeliveryInv(c, v)
  {
    SameRunsOfKeys(w, v);
    hide QueueInv; hide OpenOk; hide RowStage; hide RowPhase; hide RunsKnown; hide RunsOf;
    forall r: nat | r < |v.t.rows| ensures RowStage(c, v.t, v.runs, r) {
      assert RowStage(c, w.t, w.runs, r);
      SameStage(c, w.t, v.t, w.runs, v.runs, r, Guard);
    }
    forall a: nat, p: nat | InHand(v, a, p) ensures HandOk(c, v, a, p) {
      assert InHand(w, a, p) && HandOk(c, w, a, p);
      SameStage(c, w.t, v.t, w.runs, v.runs, w.hands[a].batch[p].handle,
        if p == w.hands[a].pos then w.hands[a].phase else Guard);
    }
  }

  // ---------------------------------------------------------------- submissions

  /** Key and job of a submission enter the tables; a row is added or not. */
  ghost predicate Joins(c: Deployment, t: Db, u: Db, s: Submission)
  {
    && |t.rows| <= |u.rows| && u.rows[..|t.rows|] == t.rows
    && EffectiveKey(s.req, s.f) != "" && EffectiveKey(s.req, s.f) !in t.keys && s.f.jobId !in t.jobs
    && s.req.tool in c.registry
    && u.jobs == t.jobs[s.f.jobId := NewJob(s.req, s.args, s.f)]
    && u.keys == t.keys[EffectiveKey(s.req, s.f) := SubmissionKey(c, s.req, s.f)]
  }

  /** Rows of other jobs keep their links and their slices. */
  lemma JoinElsewhere(c: Deployment, t: Db, u: Db, runs: seq<HandlerRun>, s: Submission, r: nat)
    requires Joins(c, t, u, s) && r < |t.rows| && t.rows[r].body.jobId != Some(s.f.jobId)
    ensures u.rows[r] == t.rows[r]
    ensures Linked(c, t, t.rows[r]) ==> Linked(c, u, u.rows[r]) && SliceOf(c, u, runs, r) == SliceOf(c, t, runs, r)
    ensures Announced(c, t, t.rows[r]) <==> Announced(c, u, u.rows[r])
    ensures Linked(c, t, t.rows[r]) || Announced(c, t, t.rows[r]) ==>
              (Linked(c, t, t.rows[r]) <==> Linked(c, u, u.rows[r]))
  {
    assert u.rows[r] == u.rows[..|t.rows|][r];
  }

  lemma RowStaysElsewhere(c: Deployment, t: Db, u: Db, runs: seq<HandlerRun>, s: Submission, r: nat, phase: Phase)
    requires Joins(c, t, u, s) && r < |t.rows| && t.rows[r].body.jobId != Some(s.f.jobId)
    requires Linked(c, t, t.rows[r]) || Announced(c, t, t.rows[r])
    ensures RowStage(c, t, runs, r) ==> RowStage(c, u, runs, r)
    ensures RowPhase(c, t, runs, r, phase) ==> RowPhase(c, u, runs, r, phase)
  {
    JoinElsewhere(c, t, u, runs, s, r);
    hide StageOk; hide InPhase; hide Linked;
  }

  /** The row of the submission: it is linked now, and it stands as if nothing had been done for it. */
  lemma JoinHere(c: Deployment, t: Db, u: Db, runs: seq<HandlerRun>, s: Submission, r: nat, phase: Phase)
    requires Joins(c, t, u, s) && r < |u.rows| && u.rows[r].body == SubmissionBody(s.req, s.args, s.f)
    requires u.rows[r].queue == c.queue
    requires (u.rows[r].status == Available && u.rows[r].deliveries == 0)
             || (u.rows[r].status == Locked && u.rows[r].deliveries == 1)
    requires forall i :: 0 <= i < |runs| && runs[i].InWorker? ==>
               runs[i].message.body.key != Some(EffectiveKey(s.req, s.f))
    ensures Linked(c, u, u.rows[r]) && RowStage(c, u, runs, r)
    ensures u.rows[r].status == Locked && (phase.Guard? || phase.Mark? || phase.RunTool?) ==>
              RowPhase(c, u, runs, r, phase)
  {
    NoRunsYet(runs, EffectiveKey(s.req, s.f));
  }

  lemma NoRunUnder(w: World, key: string)
    requires RunsKnown(w) && key !in w.t.keys
    ensures forall i :: 0 <= i < |w.runs| && w.runs[i].InWorker? ==> w.runs[i].message.body.key != Some(key)
  {
  }

  /** A whole submission adds a waiting row and disturbs no other. */
  lemma CallJoins(c: Deployment, w: World, v: World, s: Submission)
    requires DeliveryInv(c, w) && QueueInv(c, v) && OpenOk(c, v) && Joins(c, w.t, v.t, s)
    requires v.t.rows == Published(w.t.rows, c.queue, SubmissionBody(s.req, s.args, s.f), w.clock)
    requires v.hands == w.hands && v.runs == w.runs && v.open == w.open
    requires forall r :: 0 <= r < |w.t.rows| ==> w.t.rows[r].body.jobId != Some(s.f.jobId)
    ensures DeliveryInv(c, v)
  {
    hide QueueInv; hide OpenOk; hide Linked; hide Announced; hide RowStage; hide RowPhase; hide Joins;
    NoRunUnderJoin(c, w, v.t, s);
    RowsGrow(c, w.t, v.t, s);
    JoinHere(c, w.t, v.t, w.runs, s, |w.t.rows|, Guard);
    LinkedNotAnnounced(c, v.t, |w.t.rows|);
    forall r: nat | r < |v.t.rows|
      ensures Linked(c, v.t, v.t.rows[r]) || Announced(c, v.t, v.t.rows[r])
      ensures RowStage(c, v.t, v.runs, r)
      ensures Announced(c, v.t, v.t.rows[r]) ==> r < |w.t.rows| && Announced(c, w.t, w.t.rows[r])
    {
      if r < |w.t.rows| {
        JoinElsewhere(c, w.t, v.t, w.runs, s, r);
        RowStaysElsewhere(c, w.t, v.t, w.runs, s, r, Guard);
        assert RowStage(c, w.t, w.runs, r);
      }
    }
    forall a: nat, p: nat | InHand(v, a, p) ensures HandOk(c, v, a, p) {
      assert InHand(w, a, p) && HandOk(c, w, a, p);
      RowStaysElsewhere(c, w.t, v.t, w.runs, s, w.hands[a].batch[p].handle,
        if p == w.hands[a].pos then w.hands[a].phase else Guard);
    }
    RunsStayKnown(c, w, v, s);
  }

  lemma NoRunUnderJoin(c: Deployment, w: World, u: Db, s: Submission)
    requires RunsKnown(w) && Joins(c, w.t, u, s)
    ensures forall i :: 0 <= i < |w.runs| && w.runs[i].InWorker? ==>
              w.runs[i].message.body.key != Some(EffectiveKey(s.req, s.f))
  {
    NoRunUnder(w, EffectiveKey(s.req, s.f));
  }

  lemma RowsGrow(c: Deployment, t: Db, u: Db, s: Submission)
    requires Joins(c, t, u, s)
    ensures |t.rows| <= |u.rows| && forall r :: 0 <= r < |t.rows| ==> u.rows[r] == t.rows[r]
  {
    forall r | 0 <= r < |t.rows| ensures u.rows[r] == t.rows[r] {
      assert u.rows[r] == u.rows[..|t.rows|][r];
    }
  }

  lemma LinkedNotAnnounced(c: Deployment, t: Db, r: nat)
    requires r < |t.rows| && Linked(c, t, t.rows[r])
    ensures !Announced(c, t, t.rows[r])
  {
  }

  lemma RunsStayKnown(c: Deployment, w: World, v: World, s: Submission)
    requires RunsKnown(w) && v.runs == w.runs && Joins(c, w.t, v.t, s)
    ensures RunsKnown(v)
  {
  }

  lemma CallKeepsDelivery(c: Deployment, w: World, req: Request, f: Fresh, res: HandlerResult)
    requires DeliveryInv(c, w) && FreshIn(w, f)
    ensures DeliveryInv(c, AfterCall(c, w, req, f, res))
  {
    var v := AfterCall(c, w, req, f, res);
    var r := Route(c, w.t, req, f, res);
    assert v == Apply(c, w, Call(req, f, res));
    StepKeepsQueue(c, w, Call(req, f, res));
    StepKeepsOpen(c, w, Call(req, f, res));
    if r.change.Enqueue? {
      var s := CallEnters(c, w, req, f, res);
      CallIsJoin(c, w, v, s);
      CallJoins(c, w, v, s);
    } else {
      InvokeTables(c, w.t, req, f, res, w.clock);
      hide Route; hide Invoke; hide DeliveryInv; hide QueueInv; hide OpenOk;
      QuietKeepsDelivery(c, w, v);
    }
  }

  lemma CallIsJoin(c: Deployment, w: World, v: World, s: Submission)
    requires Entered(c, w, v, s)
    requires v.t.rows == Published(w.t.rows, c.queue, SubmissionBody(s.req, s.args, s.f), w.clock)
    ensures Joins(c, w.t, v.t, s)
  {
    assert v.t.rows[..|w.t.rows|] == w.t.rows;
  }

  /** The first commit of a submission adds an announced row. */
  lemma SubmitKeepsDelivery(c: Deployment, w: World, req: Request, f: Fresh)
    requires DeliveryInv(c, w) && FreshIn(w, f) && Queueable(c, req)
    ensures DeliveryInv(c, AfterSubmit(c, w, req, f))
  {
    var v := AfterSubmit(c, w, req, f);
    assert v == Apply(c, w, Submit(req, f));
    StepKeepsQueue(c, w, Submit(req, f));
    StepKeepsOpen(c, w, Submit(req, f));
    hide QueueInv; hide OpenOk;
    SubmitRows(c, w, req, f);
    hide AfterSubmit; hide Announced; hide Linked; hide RowStage; hide RowPhase;
    forall a: nat, p: nat | InHand(v, a, p) ensures HandOk(c, v, a, p) {
      assert InHand(w, a, p) && HandOk(c, w, a, p);
      SameRowSamePlace(c, w, req, f, w.hands[a].batch[p].handle,
        if p == w.hands[a].pos then w.hands[a].phase else Guard);
    }
    forall r: nat | r < |v.t.rows| ensures RowStage(c, v.t, v.runs, r) {
      if r < |w.t.rows| {
        assert RowStage(c, w.t, w.runs, r);
        SameRowSamePlace(c, w, req, f, r, Guard);
      }
    }
  }

  lemma SameRowSamePlace(c: Deployment, w: World, req: Request, f: Fresh, r: nat, phase: Phase)
    requires Queueable(c, req) && r < |w.t.rows|
    ensures var v := AfterSubmit(c, w, req, f);
            && r < |v.t.rows| && v.hands == w.hands && v.runs == w.runs
            && (RowStage(c, w.t, w.runs, r) ==> RowStage(c, v.t, v.runs, r))
            && (RowPhase(c, w.t, w.runs, r, phase) ==> RowPhase(c, v.t, v.runs, r, phase))
  {
    hide StageOk; hide InPhase;
  }

  lemma SubmitRows(c: Deployment, w: World, req: Request, f: Fresh)
    requires AllKnown(c, w.t) && OpenMatches(c, w) && RunsKnown(w) && FreshIn(w, f) && Queueable(c, req)
    ensures var v := AfterSubmit(c, w, req, f);
            && v.hands == w.hands && v.runs == w.runs && |v.t.rows| == |w.t.rows| + 1
            && AllKnown(c, v.t) && OpenMatches(c, v) && RunsKnown(v) && RowStage(c, v.t, v.runs, |w.t.rows|)
  {
    var v := AfterSubmit(c, w, req, f);
    var n := |w.t.rows|;
    assert Announced(c, v.t, v.t.rows[n]);
    LinkedNotBoth(c, v.t, n);
    forall r: nat | r < n
      ensures v.t.rows[r] == w.t.rows[r]
      ensures Linked(c, v.t, v.t.rows[r]) <==> Linked(c, w.t, w.t.rows[r])
      ensures Announced(c, v.t, v.t.rows[r]) <==> Announced(c, w.t, w.t.rows[r])
    {
    }
  }

  lemma LinkedNotBoth(c: Deployment, t: Db, r: nat)
    requires r < |t.rows| && Announced(c, t, t.rows[r])
    ensures !Linked(c, t, t.rows[r])
  {
  }

  /** The second commit of a submission links its row, whatever workers have done with the message, short of a run. */
  lemma ConcludeKeepsDelivery(c: Deployment, w: World, j: string)
    requires DeliveryInv(c, w) && CanConclude(w, j)
    ensures DeliveryInv(c, AfterConclude(c, w, j))
  {
    var v := AfterConclude(c, w, j);
    assert v == Apply(c, w, Conclude(j));
    StepKeepsQueue(c, w, Conclude(j));
    StepKeepsOpen(c, w, Conclude(j));
    ConcludeJoins(c, w, j);
    hide QueueInv; hide OpenOk; hide AfterConclude; hide AllKnown; hide OpenMatches; hide StagesOk; hide HandsOk;
    hide RunsKnown; hide Joins;
    ConcludeKeepsRows(c, w, v, w.open[j]);
    ConcludeKeepsHands(c, w, v, w.open[j]);
    RunsStayKnown(c, w, v, w.open[j]);
  }

  lemma ConcludeJoins(c: Deployment, w: World, j: string)
    requires OpenOk(c, w) && CanConclude(w, j)
    ensures var v, s := AfterConclude(c, w, j), w.open[j];
            && s.f.jobId == j && Joins(c, w.t, v.t, s) && v.t.rows == w.t.rows && v.hands == w.hands && v.runs == w.runs
            && v.open == w.open - {j}
  {
    assert SubmissionOk(c, w.t, j, w.open[j]);
  }

  lemma ConcludeKeepsRows(c: Deployment, w: World, v: World, s: Submission)
    requires AllKnown(c, w.t) && OpenMatches(c, w) && StagesOk(c, w) && RunsKnown(w)
    requires s.f.jobId in w.open && w.open[s.f.jobId] == s && v.open == w.open - {s.f.jobId}
    requires Joins(c, w.t, v.t, s) && v.t.rows == w.t.rows && v.runs == w.runs
    ensures AllKnown(c, v.t) && OpenMatches(c, v) && StagesOk(c, v)
  {
    NoRunUnderJoin(c, w, v.t, s);
    forall r: nat | r < |w.t.rows| ensures ConcludedRow(c, w, v, s, r) {
      assert RowStage(c, w.t, w.runs, r);
      ConcludeRow(c, w, v, s, r);
    }
    hide Announced; hide Linked; hide RowStage; hide Joins;
    forall r: nat | r < |v.t.rows|
      ensures Linked(c, v.t, v.t.rows[r]) || Announced(c, v.t, v.t.rows[r])
      ensures RowStage(c, v.t, v.runs, r)
    {
      assert ConcludedRow(c, w, v, s, r);
    }
    forall r | 0 <= r < |v.t.rows| && Announced(c, v.t, v.t.rows[r])
      ensures v.t.rows[r].body.jobId.value in v.open
      ensures var o := v.open[v.t.rows[r].body.jobId.value];
              v.t.rows[r].body == SubmissionBody(o.req, o.args, o.f)
    {
      assert ConcludedRow(c, w, v, s, r);
    }
  }

  lemma ConcludeKeepsHands(c: Deployment, w: World, v: World, s: Submission)
    requires QueueInv(c, w) && AllKnown(c, w.t) && OpenMatches(c, w) && StagesOk(c, w) && RunsKnown(w) && HandsOk(c, w)
    requires s.f.jobId in w.open && w.open[s.f.jobId] == s
    requires Joins(c, w.t, v.t, s) && v.t.rows == w.t.rows && v.runs == w.runs && v.hands == w.hands
    ensures HandsOk(c, v)
  {
    NoRunUnderJoin(c, w, v.t, s);
    hide QueueInv; hide AllKnown; hide OpenMatches; hide RowStage; hide RowPhase; hide Joins;
    forall a: nat, p: nat | InHand(v, a, p) ensures HandOk(c, v, a, p) {
      assert InHand(w, a, p) && HandOk(c, w, a, p);
      HandRowLocked(c, w, a, p);
      assert RowStage(c, w.t, w.runs, w.hands[a].batch[p].handle);
      ConcludePhase(c, w, v, s, w.hands[a].batch[p].handle, if p == w.hands[a].pos then w.hands[a].phase else Guard);
    }
  }

  /** Where a row stands after the second commit. */
  ghost predicate ConcludedRow(c: Deployment, w: World, v: World, s: Submission, r: nat)
  {
    && r < |w.t.rows| && r < |v.t.rows| && v.t.rows[r] == w.t.rows[r]
    && (Linked(c, v.t, v.t.rows[r]) || Announced(c, v.t, v.t.rows[r]))
    && RowStage(c, v.t, v.runs, r)
    && (Announced(c, v.t, v.t.rows[r]) ==>
          && w.t.rows[r].body.jobId.value in v.open
          && var o := v.open[w.t.rows[r].body.jobId.value];
             w.t.rows[r].body == SubmissionBody(o.req, o.args, o.f))
  }

  lemma ConcludeRow(c: Deployment, w: World, v: World, s: Submission, r: nat)
    requires r < |w.t.rows| && AllKnown(c, w.t) && OpenMatches(c, w) && RowStage(c, w.t, w.runs, r)
    requires s.f.jobId in w.open && w.open[s.f.jobId] == s && v.open == w.open - {s.f.jobId}
    requires Joins(c, w.t, v.t, s) && v.t.rows == w.t.rows && v.runs == w.runs
    requires forall i :: 0 <= i < |w.runs| && w.runs[i].InWorker? ==>
               w.runs[i].message.body.key != Some(EffectiveKey(s.req, s.f))
    ensures ConcludedRow(c, w, v, s, r)
  {
    if w.t.rows[r].body.jobId == Some(s.f.jobId) {
      assert Announced(c, w.t, w.t.rows[r]);
      JoinHere(c, w.t, v.t, w.runs, s, r, Guard);
      LinkedNotAnnounced(c, v.t, r);
    } else {
      JoinElsewhere(c, w.t, v.t, w.runs, s, r);
      RowStaysElsewhere(c, w.t, v.t, w.runs, s, r, Guard);
    }
  }

  lemma HandRowLocked(c: Deployment, w: World, a: nat, p: nat)
    requires QueueInv(c, w) && InHand(w, a, p)
    ensures var m := w.hands[a].batch[p];
            && m.handle < |w.t.rows|
            && (w.t.rows[m.handle].status == Locked || (p == w.hands[a].pos && w.hands[a].phase.NoteDuplicate?))
  {
    assert HoldsRow(c, w.t.rows, w.hands[a], p);
  }

  lemma ConcludePhase(c: Deployment, w: World, v: World, s: Submission, r: nat, phase: Phase)
    requires r < |w.t.rows| && AllKnown(c, w.t) && OpenMatches(c, w) && RowStage(c, w.t, w.runs, r)
    requires s.f.jobId in w.open && w.open[s.f.jobId] == s
    requires Joins(c, w.t, v.t, s) && v.t.rows == w.t.rows && v.runs == w.runs
    requires forall i :: 0 <= i < |w.runs| && w.runs[i].InWorker? ==>
               w.runs[i].message.body.key != Some(EffectiveKey(s.req, s.f))
    requires RowPhase(c, w.t, w.runs, r, phase) && (w.t.rows[r].status == Locked || phase.NoteDuplicate?)
    ensures RowPhase(c, v.t, v.runs, r, phase)
  {
    if w.t.rows[r].body.jobId == Some(s.f.jobId) {
      assert Announced(c, w.t, w.t.rows[r]);
      JoinHere(c, w.t, v.t, w.runs, s, r, phase);
      LinkedNotAnnounced(c, v.t, r);
    } else {
      RowStaysElsewhere(c, w.t, v.t, w.runs, s, r, phase);
    }
  }

  lemma StepKeepsDelivery(c: Deployment, w: World, s: Step)
    requires DeliveryInv(c, w) && GatewayStep(c, w, s)
    ensures DeliveryInv(c, Apply(c, w, s))
  {
    hide DeliveryInv; hide AfterCall; hide AfterSubmit; hide AfterConclude; hide AfterReceive; hide AfterWork;
    if s.Call? {
      if FreshIn(w, s.f) {
        CallKeepsDelivery(c, w, s.req, s.f, s.res);
      }
    } else if s.Submit? {
      if FreshIn(w, s.f) && Queueable(c, s.req) {
        SubmitKeepsDelivery(c, w, s.req, s.f);
      }
    } else if s.Conclude? {
      if CanConclude(w, s.jobId) {
        ConcludeKeepsDelivery(c, w, s.jobId);
      }
    } else if s.Receive? {
      if s.worker < |w.hands| && !Busy(w.hands[s.worker]) {
        ReceiveKeepsDelivery(c, w, s.worker, s.max, s.timeout);
      }
    } else if s.Work? {
      if s.worker < |w.hands| && Busy(w.hands[s.worker]) {
        WorkKeepsDelivery(c, w, s.worker);
      }
    } else if s.Crash? {
      if s.worker < |w.hands| {
        CrashKeepsDelivery(c, w, s.worker);
      }
    } else {
      QuietStepKeepsDelivery(c, w, s);
    }
  }

  lemma DeliveryHas(c: Deployment, w: World)
    requires DeliveryInv(c, w)
    ensures QueueInv(c, w) && OpenOk(c, w)
  {
  }

  lemma QuietStepKeepsDelivery(c: Deployment, w: World, s: Step)
    requires DeliveryInv(c, w) && (s.Tick? || s.Grant?)
    ensures DeliveryInv(c, Apply(c, w, s))
  {
    hide DeliveryInv; hide QueueInv; hide OpenOk;
    DeliveryHas(c, w);
    StepKeepsQueue(c, w, s);
    StepKeepsOpen(c, w, s);
    QuietKeepsDelivery(c, w, Apply(c, w, s));
  }

  lemma {:induction false} RunKeepsDelivery(c: Deployment, w: World, steps: seq<Step>)
    requires DeliveryInv(c, w) && GatewayOnly(c, w, steps)
    ensures DeliveryInv(c, Run(c, w, steps))
    decreases |steps|
  {
    if steps != [] {
      StepKeepsDelivery(c, w, steps[0]);
      RunKeepsDelivery(c, Apply(c, w, steps[0]), steps[1..]);
    }
  }

  lemma DeliveryInvariant(c: Deployment, workers: nat, steps: seq<Step>)
    requires GatewayOnly(c, Init(workers), steps)
    ensures DeliveryInv(c, Run(c, Init(workers), steps))
  {
    RunKeepsDelivery(c, Init(workers), steps);
  }
}
