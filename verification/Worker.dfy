/** The job worker (apps/worker/worker.py): one delivery is a chain of commits. */
module Worker {
  import opened Values
  import opened Tables
  import opened Catalog
  import opened LocalQueue
  import opened AuditRepository

  /** What a worker does next for the message at hand. A crash may fall between any two phases. */
  datatype Phase =
    | Guard                             // look the idempotency key up
    | Mark                              // commit job `running`
    | RunTool                           // run the handler
    | Record(res: HandlerResult)        // commit the outcome: job, key, event
    | Settle(ok: bool)                  // complete or abandon the row
    | RejectUnknown                     // commit job `dead_letter` for an unregistered tool
    | SettleUnknown                     // dead-letter the row
    | SettleDuplicate(result: Dict)     // complete the row: this commits before ...
    | NoteDuplicate(result: Dict)       // ... the session that notes the duplicate does

  // ---------------------------------------------------------------- specification

  function Truthy(s: Option<string>): bool
  {
    s.Some? && s.value != ""
  }

  function OrNull(s: Option<string>): Json
  {
    if s.Some? then Str(s.value) else Null
  }

  /** The stored result when the message's key is already completed. */
  function CompletedResult(t: Db, body: Body): Option<Dict>
  {
    if Truthy(body.key) && body.key.value in t.keys && t.keys[body.key.value].completed
    then Some(if t.keys[body.key.value].result.Some? then t.keys[body.key.value].result.value else [])
    else None
  }

  /** The request id under which the worker files what it does for a message. */
  function RequestId(body: Body): string
  {
    if body.jobId.Some? then body.jobId.value else ""
  }

  function JobEvent(body: Body, kind: EventKind, decision: Decision, detail: Dict): Event
  {
    Event(body.traceId, RequestId(body), kind, decision, body.tool, "", "", "", detail)
  }

  function ErrorCode(res: HandlerResult): string
    requires !res.Returned?
  {
    match res
    case ToolFault(code, _) => code
    case OtherFault(attribute, _) => if attribute.Some? then attribute.value else "EXECUTION_ERROR"
  }

  function WillDeadLetter(c: Deployment, msg: Message): bool
  {
    msg.deliveries >= c.maxDelivery
  }

  function RetryDetail(c: Deployment, msg: Message, code: string): Dict
  {
    [Field("error_code", Str(code)), Field("attempt", Number(msg.deliveries as real)),
     Field("max_delivery", Number(c.maxDelivery as real))]
  }

  function MarkRunning(t: Db, msg: Message): Db
  {
    t.(jobs := SetJob(t.jobs, msg.body.jobId, Running, None, None, None, Some(msg.deliveries)))
  }

  function RecordSuccess(t: Db, msg: Message, output: Dict): Db
  {
    t.(jobs := SetJob(t.jobs, msg.body.jobId, Succeeded, Some(output), None, None, Some(msg.deliveries)),
       keys := if Truthy(msg.body.key) then CompleteKey(t.keys, msg.body.key.value, output) else t.keys,
       events := t.events + [JobEvent(msg.body, JobSucceeded, Executed, [Field("job_id", OrNull(msg.body.jobId))])])
  }

  function RecordFailure(c: Deployment, t: Db, msg: Message, res: HandlerResult): Db
    requires !res.Returned?
  {
    var dead := WillDeadLetter(c, msg);
    t.(jobs := SetJob(t.jobs, msg.body.jobId, if dead then DeadLettered else Failed, None, Some(ErrorCode(res)),
                      Some(res.text), Some(msg.deliveries)),
       events := t.events + [JobEvent(msg.body, if dead then JobDeadLetter else JobRetry, Faulted,
                                      RetryDetail(c, msg, ErrorCode(res)))])
  }

  function RecordUnknown(t: Db, msg: Message): Db
  {
    t.(jobs := SetJob(t.jobs, msg.body.jobId, DeadLettered, None, Some("UNKNOWN_TOOL"),
                      Some("tool " + msg.body.tool + " not registered"), None),
       events := t.events + [JobEvent(msg.body, JobDeadLetter, Faulted, [Field("reason", Str("unknown_tool"))])])
  }

  function RecordDuplicate(t: Db, msg: Message, result: Dict): Db
  {
    t.(jobs := SetJob(t.jobs, msg.body.jobId, Succeeded, Some(result), None, None, None),
       events := t.events + [JobEvent(msg.body, DuplicateSkipped, Executed,
                                      [Field("idempotency_key", OrNull(msg.body.key))])])
  }

  /** The database after one commit, and the phase that follows; None when the message is done. */
  datatype Turn = Turn(db: Db, next: Option<Phase>)

  function Commit(c: Deployment, t: Db, msg: Message, phase: Phase, now: int): Turn
  {
    match phase
    case Guard =>
      var found := CompletedResult(t, msg.body);
      Turn(t, Some(if found.Some? then SettleDuplicate(found.value)
                   else if msg.body.tool in c.registry then Mark else RejectUnknown))
    case Mark => Turn(MarkRunning(t, msg), Some(RunTool))
    case RunTool => Turn(t, Some(Record(c.handler(msg.handle, msg.deliveries))))
    case Record(res) =>
      if res.Returned? then Turn(RecordSuccess(t, msg, res.output), Some(Settle(true)))
      else Turn(RecordFailure(c, t, msg, res), Some(Settle(false)))
    case Settle(ok) =>
      Turn(t.(rows := if ok then Completing(t.rows, msg.handle)
                      else Abandoning(t.rows, msg.handle, c.maxDelivery, now)), None)
    case RejectUnknown => Turn(RecordUnknown(t, msg), Some(SettleUnknown))
    case SettleUnknown => Turn(t.(rows := DeadLettering(t.rows, msg.handle, "unknown tool")), None)
    case SettleDuplicate(result) => Turn(t.(rows := Completing(t.rows, msg.handle)), Some(NoteDuplicate(result)))
    case NoteDuplicate(result) => Turn(RecordDuplicate(t, msg, result), None)
  }

  function Rank(phase: Phase): nat
  {
    match phase
    case Guard => 5
    case Mark => 4
    case RunTool => 3
    case Record(_) => 2
    case RejectUnknown => 2
    case SettleDuplicate(_) => 2
    case _ => 1
  }

  /** All commits from `phase` until the message is done. */
  function Finished(c: Deployment, t: Db, msg: Message, phase: Phase, now: int): Db
    decreases Rank(phase)
  {
    var turn := Commit(c, t, msg, phase, now);
    if turn.next.None? then turn.db else Finished(c, turn.db, msg, turn.next.value, now)
  }

  /**
   * The tables after each session from `phase` on that writes, in order; looking up and running the tool
   * write none.
   */
  function Commits(c: Deployment, t: Db, msg: Message, phase: Phase, now: int): seq<Db>
    decreases Rank(phase)
  {
    var turn := Commit(c, t, msg, phase, now);
    (if phase.Guard? || phase.RunTool? then [] else [turn.db])
    + (if turn.next.None? then [] else Commits(c, turn.db, msg, turn.next.value, now))
  }

  /** The rest of a batch, the message at `pos` being in `phase`. */
  function Processed(c: Deployment, t: Db, batch: seq<Message>, pos: nat, phase: Phase, now: int): Db
    decreases |batch| - pos
  {
    if pos >= |batch| then t
    else Processed(c, Finished(c, t, batch[pos], phase, now), batch, pos + 1, Guard, now)
  }

  /** The tables after each writing session of the rest of a batch. */
  function BatchCommits(c: Deployment, t: Db, batch: seq<Message>, pos: nat, phase: Phase, now: int): seq<Db>
    decreases |batch| - pos
  {
    if pos >= |batch| then []
    else Commits(c, t, batch[pos], phase, now)
         + BatchCommits(c, Finished(c, t, batch[pos], phase, now), batch, pos + 1, Guard, now)
  }

  function Received(c: Deployment, t: Db, max: nat, timeout: int, now: int): Db
  {
    t.(rows := ClaimAll(t.rows, Selected(t.rows, c.queue, now, max), now, timeout))
  }

  function Batch(c: Deployment, t: Db, max: nat, now: int): seq<Message>
  {
    MessagesOf(t.rows, Selected(t.rows, c.queue, now, max))
  }

  /** The tables after each session of a poll: the claim, then message by message. */
  function PollCommits(c: Deployment, t: Db, max: nat, timeout: int, now: int): seq<Db>
  {
    var claimed := Received(c, t, max, timeout, now);
    [claimed] + BatchCommits(c, claimed, Batch(c, t, max, now), 0, Guard, now)
  }

  /** The three ways a message can go after the lookup. */
  lemma AfterGuard(c: Deployment, t: Db, msg: Message, now: int)
    ensures var found := CompletedResult(t, msg.body);
            var res, marked := c.handler(msg.handle, msg.deliveries), MarkRunning(t, msg);
            && (found.Some? ==>
                  && Finished(c, t, msg, Guard, now) == Finished(c, t, msg, SettleDuplicate(found.value), now)
                  && Commits(c, t, msg, Guard, now) == Commits(c, t, msg, SettleDuplicate(found.value), now))
            && (found.None? && msg.body.tool !in c.registry ==>
                  && Finished(c, t, msg, Guard, now) == Finished(c, t, msg, RejectUnknown, now)
                  && Commits(c, t, msg, Guard, now) == Commits(c, t, msg, RejectUnknown, now))
            && (found.None? && msg.body.tool in c.registry ==>
                  && Finished(c, t, msg, Guard, now) == Finished(c, marked, msg, Record(res), now)
                  && Commits(c, t, msg, Guard, now) == [marked] + Commits(c, marked, msg, Record(res), now))
  {
    if CompletedResult(t, msg.body).None? && msg.body.tool in c.registry {
      var marked, res := MarkRunning(t, msg), c.handler(msg.handle, msg.deliveries);
      assert Finished(c, t, msg, Mark, now) == Finished(c, marked, msg, RunTool, now);
      assert Finished(c, marked, msg, RunTool, now) == Finished(c, marked, msg, Record(res), now);
      assert Commits(c, t, msg, Mark, now) == [marked] + Commits(c, marked, msg, RunTool, now);
      assert Commits(c, marked, msg, RunTool, now) == Commits(c, marked, msg, Record(res), now);
    }
  }

  lemma BatchEnds(c: Deployment, t: Db, batch: seq<Message>, now: int)
    ensures Processed(c, t, batch, |batch|, Guard, now) == t && BatchCommits(c, t, batch, |batch|, Guard, now) == []
  {
  }

  /** One more message of a batch. */
  lemma BatchCommitsStep(c: Deployment, t: Db, batch: seq<Message>, i: nat, now: int)
    requires i < |batch|
    ensures var u := Finished(c, t, batch[i], Guard, now);
            && Processed(c, t, batch, i, Guard, now) == Processed(c, u, batch, i + 1, Guard, now)
            && BatchCommits(c, t, batch, i, Guard, now)
               == Commits(c, t, batch[i], Guard, now) + BatchCommits(c, u, batch, i + 1, Guard, now)
  {
  }

  // ---------------------------------------------------------------- one delivery

  /** Only the message's job may differ. */
  predicate OnlyItsJob(before: map<string, Job>, after: map<string, Job>, body: Body)
  {
    && after.Keys == before.Keys
    && forall j :: j in before && Some(j) != body.jobId ==> after[j] == before[j]
  }

  /** Only the message's row may differ. */
  predicate OnlyItsRow(before: seq<Row>, after: seq<Row>, handle: nat)
  {
    |after| == |before| && forall k :: 0 <= k < |before| && k != handle ==> after[k] == before[k]
  }

  /** The message's key is completed. */
  predicate KeyIsDone(t: Db, body: Body)
  {
    body.key.Some? && body.key.value != "" && body.key.value in t.keys && t.keys[body.key.value].completed
  }

  /** One event was written: in the message's name, for its job, without a user. */
  predicate Wrote(t: Db, u: Db, body: Body, kind: EventKind, decision: Decision, detail: Dict)
  {
    u.events == t.events + [Event(body.traceId, if body.jobId.Some? then body.jobId.value else "", kind, decision,
                                  body.tool, "", "", "", detail)]
  }

  /** A message whose key is completed: no handler run, the row completed, the stored result put into the job. */
  lemma CompletedKeyIsSkipped(c: Deployment, t: Db, msg: Message, now: int)
    requires KeyIsDone(t, msg.body)
    ensures var u, stored := Finished(c, t, msg, Guard, now), t.keys[msg.body.key.value].result;
            && OnlyItsJob(t.jobs, u.jobs, msg.body) && OnlyItsRow(t.rows, u.rows, msg.handle) && u.keys == t.keys
            && (msg.handle < |t.rows| ==> u.rows[msg.handle] == t.rows[msg.handle].(status := Completed))
            && (msg.body.jobId.Some? && msg.body.jobId.value in t.jobs ==>
                  u.jobs[msg.body.jobId.value]
                  == t.jobs[msg.body.jobId.value].(status := Succeeded,
                                                   result := Some(if stored.Some? then stored.value else [])))
            && Wrote(t, u, msg.body, DuplicateSkipped, Executed, [Field("idempotency_key", Str(msg.body.key.value))])
  {
    var result := CompletedResult(t, msg.body).value;
    var settled := Commit(c, t, msg, SettleDuplicate(result), now).db;
    assert Finished(c, t, msg, Guard, now) == Finished(c, t, msg, SettleDuplicate(result), now);
    assert Finished(c, settled, msg, NoteDuplicate(result), now) == RecordDuplicate(settled, msg, result);
  }

  /** A message for an unregistered tool is dead-lettered at once, whatever its delivery count. */
  lemma UnknownToolIsDeadLettered(c: Deployment, t: Db, msg: Message, now: int)
    requires !KeyIsDone(t, msg.body) && msg.body.tool !in c.registry
    ensures var u := Finished(c, t, msg, Guard, now);
            && OnlyItsJob(t.jobs, u.jobs, msg.body) && OnlyItsRow(t.rows, u.rows, msg.handle) && u.keys == t.keys
            && (msg.handle < |t.rows| ==>
                  u.rows[msg.handle] == t.rows[msg.handle].(status := DeadLetter, reason := Some("unknown tool")))
            && (msg.body.jobId.Some? && msg.body.jobId.value in t.jobs ==>
                  u.jobs[msg.body.jobId.value]
                  == t.jobs[msg.body.jobId.value].(
                         status := DeadLettered, errorCode := Some("UNKNOWN_TOOL"),
                         errorDetail := Some("tool " + msg.body.tool + " not registered")))
            && Wrote(t, u, msg.body, JobDeadLetter, Faulted, [Field("reason", Str("unknown_tool"))])
  {
    var recorded := RecordUnknown(t, msg);
    assert Finished(c, t, msg, Guard, now) == Finished(c, t, msg, RejectUnknown, now);
    assert Finished(c, recorded, msg, SettleUnknown, now).rows == DeadLettering(t.rows, msg.handle, "unknown tool");
  }

  /** A delivery whose handler returned, in job, row, key and event. */
  predicate ShowsSuccess(t: Db, u: Db, msg: Message, output: Dict)
  {
    && OnlyItsJob(t.jobs, u.jobs, msg.body) && OnlyItsRow(t.rows, u.rows, msg.handle)
    && (msg.body.jobId.Some? && msg.body.jobId.value in t.jobs ==>
          u.jobs[msg.body.jobId.value]
          == t.jobs[msg.body.jobId.value].(status := Succeeded, attempts := msg.deliveries, result := Some(output)))
    && (msg.handle < |t.rows| ==> u.rows[msg.handle] == t.rows[msg.handle].(status := Completed))
    && u.keys == (if msg.body.key.Some? && msg.body.key.value != "" && msg.body.key.value in t.keys
                  then var k := msg.body.key.value; t.keys[k := t.keys[k].(completed := true, result := Some(output))]
                  else t.keys)
    && Wrote(t, u, msg.body, JobSucceeded, Executed,
             [Field("job_id", if msg.body.jobId.Some? then Str(msg.body.jobId.value) else Null)])
  }

  /** The code of a failure: a tool error's own, an exception's attribute, else the general one. */
  predicate FiledUnder(res: HandlerResult, code: string)
  {
    && (res.ToolFault? ==> code == res.code)
    && (res.OtherFault? && res.codeAttribute.Some? ==> code == res.codeAttribute.value)
    && (res.OtherFault? && res.codeAttribute.None? ==> code == "EXECUTION_ERROR")
  }

  /**
   * A delivery whose handler raised. The message's count decides what is recorded, the row's count what the
   * queue does.
   */
  predicate ShowsFailure(c: Deployment, t: Db, u: Db, msg: Message, code: string, text: string, now: int)
  {
    && OnlyItsJob(t.jobs, u.jobs, msg.body) && OnlyItsRow(t.rows, u.rows, msg.handle)
    && (msg.body.jobId.Some? && msg.body.jobId.value in t.jobs ==>
          u.jobs[msg.body.jobId.value]
          == t.jobs[msg.body.jobId.value].(status := if msg.deliveries >= c.maxDelivery then DeadLettered else Failed,
                                           attempts := msg.deliveries, errorCode := Some(code),
                                           errorDetail := Some(text)))
    && (msg.handle < |t.rows| ==>
          var row := t.rows[msg.handle];
          u.rows[msg.handle] == if row.deliveries >= c.maxDelivery
                                then row.(status := DeadLetter, reason := Some("max delivery count exceeded"))
                                else row.(status := Available, visibleAt := now))
    && u.keys == t.keys
    && Wrote(t, u, msg.body, if msg.deliveries >= c.maxDelivery then JobDeadLetter else JobRetry, Faulted,
             [Field("error_code", Str(code)), Field("attempt", Number(msg.deliveries as real)),
              Field("max_delivery", Number(c.maxDelivery as real))])
  }

  /** Any other message runs the tool once; success, retry and dead letter each show in all four places. */
  lemma AttemptIsRecorded(c: Deployment, t: Db, msg: Message, now: int)
    requires !KeyIsDone(t, msg.body) && msg.body.tool in c.registry
    ensures var res, u := c.handler(msg.handle, msg.deliveries), Finished(c, t, msg, Guard, now);
            && (res.Returned? ==> ShowsSuccess(t, u, msg, res.output))
            && (!res.Returned? ==>
                  exists code :: FiledUnder(res, code) && ShowsFailure(c, t, u, msg, code, res.text, now))
  {
    var res := c.handler(msg.handle, msg.deliveries);
    var marked := MarkRunning(t, msg);
    var recorded := Commit(c, marked, msg, Record(res), now).db;
    AfterGuard(c, t, msg, now);
    assert Finished(c, recorded, msg, Settle(res.Returned?), now)
           == Commit(c, recorded, msg, Settle(res.Returned?), now).db;
    if !res.Returned? {
      assert FiledUnder(res, ErrorCode(res));
      assert ShowsFailure(c, t, Finished(c, t, msg, Guard, now), msg, ErrorCode(res), res.text, now);
    }
  }

  // ---------------------------------------------------------------- the worker

  class JobWorker {
    const c: Deployment
    const db: Database
    const repo: Repository
    const queue: Queue
    const maxDelivery: int

    constructor (c: Deployment, db: Database)
      ensures this.c == c && this.db == db && Wired()
    {
      this.c, this.db, this.maxDelivery := c, db, c.maxDelivery;
      this.repo := new Repository(db);
      this.queue := new Queue(db, c.queue, c.maxDelivery);
    }

    predicate Wired()
    {
      && repo.db == db && queue.db == db && queue.name == c.queue
      && queue.maxDelivery == c.maxDelivery && maxDelivery == c.maxDelivery
    }

    /** `_process`: guard, run, record, settle; each write in its session, in the order in which the source commits. */
    method Process(message: Message, now: int)
      requires Wired()
      modifies db
      ensures db.View() == Finished(c, old(db.View()), message, Guard, now)
      ensures db.log == old(db.log) + Commits(c, old(db.View()), message, Guard, now)
    {
      hide Finished; hide Commits;
      AfterGuard(c, db.View(), message, now);
      var body := message.body;
      var idem := None;
      if Truthy(body.key) {
        idem := repo.GetIdempotency(body.key.value);
      }
      if idem.Some? && idem.value.completed {
        SkipDuplicate(message, if idem.value.result.Some? then idem.value.result.value else [], now);
        return;
      }
      if body.tool !in c.registry {
        RejectMessage(message, now);
        return;
      }
      ghost var committed := db.log;
      repo.SetJobStatus(body.jobId, Running, None, None, None, Some(message.deliveries));
      db.EndSession();
      ghost var marked := db.View();
      var res := c.handler(message.handle, message.deliveries);
      if res.Returned? {
        SettleSuccess(message, res, now);
      } else {
        HandleFailure(message, res, now);
      }
      assert db.log == committed + ([marked] + Commits(c, marked, message, Record(res), now));
    }

    /** The settle of the row commits inside, hence before, the session that updates the job. */
    method SkipDuplicate(message: Message, result: Dict, ghost now: int)
      requires Wired()
      modifies db
      ensures db.View() == Finished(c, old(db.View()), message, SettleDuplicate(result), now)
      ensures db.log == old(db.log) + Commits(c, old(db.View()), message, SettleDuplicate(result), now)
    {
      queue.Complete(message);
      ghost var settled := db.View();
      repo.SetJobStatus(message.body.jobId, Succeeded, Some(result), None, None, None);
      repo.RecordEvent(JobEvent(message.body, DuplicateSkipped, Executed,
                                [Field("idempotency_key", OrNull(message.body.key))]));
      db.EndSession();
      assert db.View() == RecordDuplicate(settled, message, result);
      assert Commits(c, settled, message, NoteDuplicate(result), now) == [db.View()];
      assert db.log == old(db.log) + [settled, db.View()];
    }

    method RejectMessage(message: Message, ghost now: int)
      requires Wired()
      modifies db
      ensures db.View() == Finished(c, old(db.View()), message, RejectUnknown, now)
      ensures db.log == old(db.log) + Commits(c, old(db.View()), message, RejectUnknown, now)
    {
      repo.SetJobStatus(message.body.jobId, DeadLettered, None, Some("UNKNOWN_TOOL"),
                        Some("tool " + message.body.tool + " not registered"), None);
      repo.RecordEvent(JobEvent(message.body, JobDeadLetter, Faulted, [Field("reason", Str("unknown_tool"))]));
      db.EndSession();
      ghost var recorded := db.View();
      assert recorded == RecordUnknown(old(db.View()), message);
      queue.DeadLetterMessage(message, "unknown tool");
      assert Commits(c, recorded, message, SettleUnknown, now) == [db.View()];
      assert db.log == old(db.log) + [recorded, db.View()];
    }

    method SettleSuccess(message: Message, res: HandlerResult, ghost now: int)
      requires Wired() && res.Returned?
      modifies db
      ensures db.View() == Finished(c, old(db.View()), message, Record(res), now)
      ensures db.log == old(db.log) + Commits(c, old(db.View()), message, Record(res), now)
    {
      repo.SetJobStatus(message.body.jobId, Succeeded, Some(res.output), None, None, Some(message.deliveries));
      if Truthy(message.body.key) {
        repo.CompleteIdempotency(message.body.key.value, res.output);
      }
      repo.RecordEvent(JobEvent(message.body, JobSucceeded, Executed, [Field("job_id", OrNull(message.body.jobId))]));
      db.EndSession();
      ghost var recorded := db.View();
      assert recorded == RecordSuccess(old(db.View()), message, res.output);
      queue.Complete(message);
      assert Commits(c, recorded, message, Settle(true), now) == [db.View()];
      assert db.log == old(db.log) + [recorded, db.View()];
    }

    /** `_handle_failure`: record retry or dead letter, then abandon; the queue decides on its own count. */
    method HandleFailure(message: Message, res: HandlerResult, now: int)
      requires Wired() && !res.Returned?
      modifies db
      ensures db.View() == Finished(c, old(db.View()), message, Record(res), now)
      ensures db.log == old(db.log) + Commits(c, old(db.View()), message, Record(res), now)
    {
      var dead := message.deliveries >= maxDelivery;
      repo.SetJobStatus(message.body.jobId, if dead then DeadLettered else Failed, None, Some(ErrorCode(res)),
                        Some(res.text), Some(message.deliveries));
      repo.RecordEvent(JobEvent(message.body, if dead then JobDeadLetter else JobRetry, Faulted,
                                RetryDetail(c, message, ErrorCode(res))));
      db.EndSession();
      ghost var recorded := db.View();
      assert recorded == RecordFailure(c, old(db.View()), message, res);
      queue.Abandon(message, now);
      assert Commits(c, recorded, message, Settle(false), now) == [db.View()];
      assert db.log == old(db.log) + [recorded, db.View()];
    }

    /** `poll_once`. */
    method PollOnce(max: nat, timeout: int, now: int) returns (processed: nat)
      requires Wired()
      modifies db
      ensures var batch := Batch(c, old(db.View()), max, now);
              && processed == |batch|
              && db.View() == Processed(c, Received(c, old(db.View()), max, timeout, now), batch, 0, Guard, now)
      ensures db.log == old(db.log) + PollCommits(c, old(db.View()), max, timeout, now)
    {
      hide Finished; hide Commits; hide Processed; hide BatchCommits;
      var messages := queue.Receive(max, timeout, now);
      ghost var claimed := db.View();
      ghost var done: seq<Db> := [];
      for i := 0 to |messages|
        invariant Processed(c, db.View(), messages, i, Guard, now) == Processed(c, claimed, messages, 0, Guard, now)
        invariant db.log == old(db.log) + [claimed] + done
        invariant done + BatchCommits(c, db.View(), messages, i, Guard, now)
                  == BatchCommits(c, claimed, messages, 0, Guard, now)
      {
        BatchCommitsStep(c, db.View(), messages, i, now);
        done := done + Commits(c, db.View(), messages[i], Guard, now);
        Process(messages[i], now);
      }
      BatchEnds(c, db.View(), messages, now);
      processed := |messages|;
    }
  }
}
