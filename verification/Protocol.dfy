/**
 * The asynchronous execution protocol as a transition system: gateway, approver, any number of workers that
 * interleave commit by commit and may crash between any two commits, and a clock that never goes back.
 * A schedule is any sequence of steps; a step that is not possible changes nothing.
 */
module Protocol {
  import opened Values
  import opened Tables
  import opened Catalog
  import opened Gateway
  import opened Worker

  /** A worker's claimed batch; the messages from `pos` on are still in its hand. */
  datatype Hand = Hand(batch: seq<Message>, pos: nat, phase: Phase)

  const IDLE: Hand := Hand([], 0, Guard)

  datatype HandlerRun =
    | InGateway(requestId: string, tool: string, args: Dict, res: HandlerResult)
    | InWorker(tool: string, args: Dict, message: Message, res: HandlerResult)

  datatype Observation =
    | Invoked(req: Request, response: Response)
    | ApprovedBy(who: Principal, approvalId: string)

  /**
   * The committed tables, the clock, the workers' hands and the submissions between their two commits, by job id,
   * with three history variables: the handler runs, what clients saw, and the claimed messages that crashes dropped
   * before their event was written.
   */
  datatype World = World(t: Db, clock: int, hands: seq<Hand>, open: map<string, Submission>, runs: seq<HandlerRun>,
                         trace: seq<Observation>, lost: seq<Message>)

  datatype Step =
    | Tick(d: nat)
    | Call(req: Request, f: Fresh, res: HandlerResult) // a whole invocation
    | Submit(req: Request, f: Fresh)              // the first commit of a submission
    | Conclude(jobId: string)                     // the second commit of a submission
    | Grant(who: Principal, approvalId: string)
    | Publish(queue: string, body: Body)          // a message from elsewhere
    | Republish(handle: nat)                      // one more copy of a message
    | Receive(worker: nat, max: nat, timeout: int)
    | Work(worker: nat)                           // the next commit of a worker
    | Crash(worker: nat)

  function Init(workers: nat): World
  {
    World(EMPTY, 0, seq(workers, _ => IDLE), map[], [], [], [])
  }

  predicate Busy(h: Hand)
  {
    h.pos < |h.batch|
  }

  /** Drawn identifiers are in no table. */
  predicate FreshIds(t: Db, f: Fresh)
  {
    && f.jobId !in t.jobs && f.approvalId !in t.approvals && f.key !in t.keys && f.key != "" && f.jobId != ""
    && (forall r :: 0 <= r < |t.rows| ==> t.rows[r].body.jobId != Some(f.jobId))
    && (forall n :: 0 <= n < |t.calls| ==> t.calls[n].requestId != f.requestId)
  }

  /** Drawn identifiers are in no table and in no open session. */
  predicate FreshIn(w: World, f: Fresh)
  {
    FreshIds(w.t, f) && f.jobId !in w.open && forall j :: j in w.open ==> w.open[j].f.requestId != f.requestId
  }

  function AfterCall(c: Deployment, w: World, req: Request, f: Fresh, res: HandlerResult): World
  {
    var r := Route(c, w.t, req, f, res);
    w.(t := Invoke(c, w.t, req, f, res, w.clock),
       runs := if r.ran.Some? then w.runs + [InGateway(f.requestId, req.tool, r.ran.value, res)] else w.runs,
       trace := w.trace + [Invoked(req, r.response)])
  }

  /** The call is admitted and its tool is one whose calls are queued. */
  predicate Queueable(c: Deployment, req: Request)
  {
    Permitted(c, req) && AsyncOnly(c.registry[req.tool]) && c.registry[req.tool].validate(req.arguments).Ok?
  }

  /** The publish commits in its own session. The key was looked up before, so the lookup may be stale by now. */
  function AfterSubmit(c: Deployment, w: World, req: Request, f: Fresh): World
    requires Queueable(c, req)
  {
    var args := c.registry[req.tool].validate(req.arguments).value;
    w.(t := w.t.(rows := Published(w.t.rows, c.queue, SubmissionBody(req, args, f), w.clock)),
       open := w.open[f.jobId := Submission(req, f, args)])
  }

  /** The key has not been committed by another session meanwhile. */
  predicate CanConclude(w: World, j: string)
  {
    j in w.open && EffectiveKey(w.open[j].req, w.open[j].f) !in w.t.keys
  }

  /** The session commits and the client gets its answer. With the key taken it rolls back, and there is no answer. */
  function AfterConclude(c: Deployment, w: World, j: string): World
    requires CanConclude(w, j)
  {
    var s := w.open[j];
    w.(t := Concluded(c, w.t, s), open := w.open - {j},
       trace := w.trace + [Invoked(s.req, QueuedResponse(s.req, s.f, s.f.jobId))])
  }

  function AfterReceive(c: Deployment, w: World, i: nat, max: nat, timeout: int): World
    requires i < |w.hands|
  {
    w.(t := Received(c, w.t, max, timeout, w.clock), hands := w.hands[i := Hand(Batch(c, w.t, max, w.clock), 0, Guard)])
  }

  /** The hand after a commit: the next phase of the same message, or the next message. */
  function Advanced(h: Hand, next: Option<Phase>): Hand
  {
    if next.Some? then h.(phase := next.value) else h.(pos := h.pos + 1, phase := Guard)
  }

  /** The handler runs after a commit in `phase`. */
  function RunsAfter(c: Deployment, runs: seq<HandlerRun>, msg: Message, phase: Phase): seq<HandlerRun>
  {
    if phase.RunTool?
    then runs + [InWorker(msg.body.tool, msg.body.arguments, msg, c.handler(msg.handle, msg.deliveries))]
    else runs
  }

  function AfterWork(c: Deployment, w: World, i: nat): World
    requires i < |w.hands| && Busy(w.hands[i])
  {
    var h := w.hands[i];
    var msg := h.batch[h.pos];
    var turn := Commit(c, w.t, msg, h.phase, w.clock);
    w.(t := turn.db, hands := w.hands[i := Advanced(h, turn.next)],
       runs := RunsAfter(c, w.runs, msg, h.phase))
  }

  /** Messages in a hand whose event is not written yet. */
  function Unrecorded(h: Hand): seq<Message>
  {
    if !Busy(h) then []
    else if h.phase.Settle? || h.phase.SettleUnknown? then h.batch[h.pos + 1..]
    else h.batch[h.pos..]
  }

  function Apply(c: Deployment, w: World, s: Step): World
  {
    match s
    case Tick(d) => w.(clock := w.clock + d)
    case Call(req, f, res) => if FreshIn(w, f) then AfterCall(c, w, req, f, res) else w
    case Submit(req, f) => if FreshIn(w, f) && Queueable(c, req) then AfterSubmit(c, w, req, f) else w
    case Conclude(j) => if CanConclude(w, j) then AfterConclude(c, w, j) else w
    case Grant(who, id) =>
      if MayApprove(w.t, who, id) then w.(t := Approve(w.t, who, id), trace := w.trace + [ApprovedBy(who, id)]) else w
    case Publish(queue, body) => w.(t := w.t.(rows := Published(w.t.rows, queue, body, w.clock)))
    case Republish(handle) =>
      if handle < |w.t.rows|
      then w.(t := w.t.(rows := Published(w.t.rows, w.t.rows[handle].queue, w.t.rows[handle].body, w.clock)))
      else w
    case Receive(i, max, timeout) =>
      if i < |w.hands| && !Busy(w.hands[i]) then AfterReceive(c, w, i, max, timeout) else w
    case Work(i) => if i < |w.hands| && Busy(w.hands[i]) then AfterWork(c, w, i) else w
    case Crash(i) =>
      if i < |w.hands| then w.(hands := w.hands[i := IDLE], lost := w.lost + Unrecorded(w.hands[i])) else w
  }

  function Run(c: Deployment, w: World, steps: seq<Step>): World
    decreases |steps|
  {
    if steps == [] then w else Run(c, Apply(c, w, steps[0]), steps[1..])
  }

  lemma {:induction false} RunConcat(c: Deployment, w: World, a: seq<Step>, b: seq<Step>)
    ensures Run(c, w, a + b) == Run(c, Run(c, w, a), b)
    decreases |a|
  {
    if a == [] {
      assert a + b == b;
    } else {
      assert (a + b)[0] == a[0] && (a + b)[1..] == a[1..] + b;
      RunConcat(c, Apply(c, w, a[0]), a[1..], b);
    }
  }

  lemma RunSnoc(c: Deployment, w: World, steps: seq<Step>, s: Step)
    ensures Run(c, w, steps + [s]) == Apply(c, Run(c, w, steps), s)
  {
    var v := Run(c, w, steps);
    RunConcat(c, w, steps, [s]);
    assert [s][1..] == [];
    assert Run(c, v, [s]) == Run(c, Apply(c, v, s), []);
  }
}
