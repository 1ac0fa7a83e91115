/**
 * The shared database: the audit schema (packages/audit/models.py) and the queue table
 * (packages/servicebus/local.py).
 */
module Tables {
  import opened Values
  import opened Redactor

  // ---------------------------------------------------------------- queue_messages

  datatype RowStatus = Available | Locked | Completed | DeadLetter

  /** A message body; keys absent from the JSON are None or the default the worker reads them with. */
  datatype Body = Body(jobId: Option<string>, key: Option<string>, tool: string, traceId: string, arguments: Dict)

  /** A queue row. Its id is its position in the table: ids are handed out in order and rows are never deleted. */
  datatype Row = Row(
    queue: string, body: Body, status: RowStatus, deliveries: nat, visibleAt: int, reason: Option<string>)

  /** A claimed message in a worker's hand. */
  datatype Message = Message(body: Body, deliveries: nat, handle: nat)

  // ---------------------------------------------------------------- audit schema

  datatype JobStatus = Queued | Running | Succeeded | Failed | DeadLettered

  datatype Job = Job(
    traceId: string, requestId: string, tool: string, key: string,
    userId: string, agentId: string, role: string, payload: Dict,
    status: JobStatus, attempts: nat, result: Option<Dict>, errorCode: Option<string>, errorDetail: Option<string>)

  datatype KeyRow = KeyRow(tool: string, jobId: string, inputHash: string, completed: bool, result: Option<Dict>)

  datatype ApprovalStatus = Pending | Approved | Consumed

  datatype Approval = Approval(
    tool: string, resourceId: string, proposedChange: Dict, agent: string, role: string,
    status: ApprovalStatus, approvedBy: Option<string>)

  datatype Decision = Denied | DryRun | Enqueued | Executed | Faulted | Granted

  datatype EventKind =
    | ToolEvent(decision: Decision)
    | JobSucceeded
    | JobRetry
    | JobDeadLetter
    | DuplicateSkipped
    | ApprovalGranted

  datatype Event = Event(
    traceId: string, requestId: string, kind: EventKind, decision: Decision, tool: string,
    userId: string, agentId: string, role: string, detail: Dict)

  datatype ToolCall = ToolCall(
    traceId: string, requestId: string, userId: string, agentId: string, role: string, tool: string,
    inputHash: string, redaction: RedactionStatus, decision: Decision, errorCode: Option<string>)

  datatype Db = Db(
    rows: seq<Row>,
    jobs: map<string, Job>,
    keys: map<string, KeyRow>,
    approvals: map<string, Approval>,
    events: seq<Event>,
    calls: seq<ToolCall>)

  const EMPTY: Db := Db([], map[], map[], map[], [], [])

  // ---------------------------------------------------------------- queue operations on the rows

  function Published(rows: seq<Row>, queue: string, body: Body, now: int): seq<Row>
  {
    rows + [Row(queue, body, Available, 0, now, None)]
  }

  predicate IsReady(row: Row, queue: string, now: int)
  {
    row.queue == queue && row.status == Available && row.visibleAt <= now
  }

  /** The ids of the rows a query for ready rows returns, in id order. */
  function Ready(rows: seq<Row>, queue: string, now: int): (ids: seq<nat>)
    ensures forall i :: 0 <= i < |ids| ==> ids[i] < |rows|
  {
    if rows == [] then []
    else
      var n := |rows| - 1;
      Ready(rows[..n], queue, now) + (if IsReady(rows[n], queue, now) then [n] else [])
  }

  /** `LIMIT max`. */
  function Selected(rows: seq<Row>, queue: string, now: int, max: nat): (ids: seq<nat>)
    ensures forall i :: 0 <= i < |ids| ==> ids[i] < |rows|
  {
    var ready := Ready(rows, queue, now);
    if |ready| <= max then ready else ready[..max]
  }

  function ClaimRow(row: Row, now: int, timeout: int): Row
  {
    row.(status := Locked, deliveries := row.deliveries + 1, visibleAt := now + timeout)
  }

  function ClaimAll(rows: seq<Row>, ids: seq<nat>, now: int, timeout: int): (r: seq<Row>)
    ensures |r| == |rows|
  {
    seq(|rows|, i requires 0 <= i < |rows| => if i in ids then ClaimRow(rows[i], now, timeout) else rows[i])
  }

  /** The messages handed out for the rows `ids` of the table before the claim. */
  function MessagesOf(rows: seq<Row>, ids: seq<nat>): (r: seq<Message>)
    requires forall i :: 0 <= i < |ids| ==> ids[i] < |rows|
    ensures |r| == |ids|
  {
    seq(|ids|, i requires 0 <= i < |ids| => Message(rows[ids[i]].body, rows[ids[i]].deliveries + 1, ids[i]))
  }

  function CompleteRow(row: Row): Row
  {
    row.(status := Completed)
  }

  function AbandonRow(row: Row, maxDelivery: int, now: int): Row
  {
    if row.deliveries >= maxDelivery
    then row.(status := DeadLetter, reason := Some("max delivery count exceeded"))
    else row.(status := Available, visibleAt := now)
  }

  function DeadLetterRow(row: Row, reason: string): Row
  {
    row.(status := DeadLetter, reason := Some(if reason == "" then "explicit dead-letter" else reason))
  }

  function Completing(rows: seq<Row>, handle: nat): seq<Row>
  {
    if handle < |rows| then rows[handle := CompleteRow(rows[handle])] else rows
  }

  function Abandoning(rows: seq<Row>, handle: nat, maxDelivery: int, now: int): seq<Row>
  {
    if handle < |rows| then rows[handle := AbandonRow(rows[handle], maxDelivery, now)] else rows
  }

  function DeadLettering(rows: seq<Row>, handle: nat, reason: string): seq<Row>
  {
    if handle < |rows| then rows[handle := DeadLetterRow(rows[handle], reason)] else rows
  }

  // ---------------------------------------------------------------- repository operations

  /** The job after `set_job_status`: the status always changes, the other fields only when given. */
  function Patched(job: Job, status: JobStatus, result: Option<Dict>, code: Option<string>, detail: Option<string>,
                   attempts: Option<nat>): Job
  {
    job.(status := status,
         result := if result.Some? then result else job.result,
         errorCode := if code.Some? then code else job.errorCode,
         errorDetail := if detail.Some? then detail else job.errorDetail,
         attempts := if attempts.Some? then attempts.value else job.attempts)
  }

  /** `set_job_status`: nothing happens for a missing job. */
  function SetJob(jobs: map<string, Job>, jobId: Option<string>, status: JobStatus, result: Option<Dict>,
                  code: Option<string>, detail: Option<string>, attempts: Option<nat>): map<string, Job>
  {
    if jobId.Some? && jobId.value in jobs
    then jobs[jobId.value := Patched(jobs[jobId.value], status, result, code, detail, attempts)]
    else jobs
  }

  /** `complete_idempotency`: nothing happens for a missing key. */
  function CompleteKey(keys: map<string, KeyRow>, key: string, result: Dict): map<string, KeyRow>
  {
    if key in keys then keys[key := keys[key].(completed := true, result := Some(result))] else keys
  }
}
