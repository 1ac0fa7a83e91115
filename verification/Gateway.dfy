/**
 * The governed pipeline (apps/mcp-gateway/app/executor.py) and the approval endpoint
 * (apps/mcp-gateway/app/main.py).
 */
module Gateway {
  import opened Values
  import opened Redactor
  import opened Rbac
  import opened Tables
  import opened Catalog
  import opened LocalQueue
  import opened AuditRepository

  datatype Request = Request(
    principal: Principal, tool: string, arguments: Dict, key: Option<string>, approvalToken: Option<string>)

  /** Identifiers drawn for one invocation. */
  datatype Fresh = Fresh(requestId: string, traceId: string, jobId: string, approvalId: string, key: string)

  /** The invocation outcome without its human-readable message and latency. */
  datatype Response = Response(
    requestId: string, traceId: string, tool: string, decision: Decision, result: Option<Json>,
    jobId: Option<string>, approvalId: Option<string>, errorCode: Option<string>,
    redaction: RedactionStatus, redactedFields: seq<string>, matchedPatterns: seq<string>)

  /** The one change, besides the audit rows, that an invocation makes. */
  datatype Change =
    | Nothing
    | NewApproval(approvalId: string, approval: Approval)
    | Consume(consumed: string, approver: string)
    | Enqueue(key: string, keyRow: KeyRow, jobId: string, job: Job, body: Body)

  /** The routing of a request: the response, the change, and the arguments the handler ran with, if it ran. */
  datatype Routed = Routed(response: Response, change: Change, ran: Option<Dict>)

  // ---------------------------------------------------------------- specification

  function Refusal(req: Request, f: Fresh, decision: Decision, code: string): Response
  {
    Response(f.requestId, f.traceId, req.tool, decision, None, None, None, Some(code), Clean, [], [])
  }

  /** The tool is registered and RBAC lets the caller use it. */
  predicate Permitted(c: Deployment, req: Request)
  {
    && req.tool in c.registry
    && var spec := c.registry[req.tool];
       Evaluate(req.principal.role, spec.requiredRoles, c.knownRoles, spec.enabled) == Allowed
  }

  /** The call is permitted, and validation turns its arguments into `args`. */
  predicate Admits(c: Deployment, req: Request, args: Dict)
  {
    Permitted(c, req) && c.registry[req.tool].validate(req.arguments) == Ok(args)
  }

  /** A tool whose calls are queued. */
  predicate AsyncOnly(spec: ToolSpec)
  {
    spec.classification != Destructive && !spec.dryRunRequired && spec.mode == Async
  }

  function RedactOutput(c: Deployment, req: Request, output: Dict): (r: Redaction)
    requires req.tool in c.registry
    ensures r.data.Obj?
  {
    var spec := c.registry[req.tool];
    Redact(Policy(c.patterns, spec.sensitiveFields, req.principal.role in spec.rawPiiRoles), Obj(output))
  }

  /** The response to a handler that raised. */
  function FaultResponse(req: Request, f: Fresh, res: HandlerResult): Response
    requires !res.Returned?
  {
    Refusal(req, f, Faulted, if res.ToolFault? then res.code else "INTERNAL_ERROR")
  }

  function RouteSync(c: Deployment, req: Request, args: Dict, f: Fresh, res: HandlerResult): Routed
    requires req.tool in c.registry
  {
    if res.Returned? then
      var red := RedactOutput(c, req, res.output);
      Routed(Response(f.requestId, f.traceId, req.tool, Executed, Some(red.data), None, None, None,
                      red.Status(), red.redactedFields, red.matchedPatterns), Nothing, Some(args))
    else Routed(FaultResponse(req, f, res), Nothing, Some(args))
  }

  function RouteDryRun(c: Deployment, req: Request, args: Dict, f: Fresh, res: HandlerResult): Routed
    requires req.tool in c.registry
  {
    if res.Returned? then
      var red := RedactOutput(c, req, res.output);
      Routed(Response(f.requestId, f.traceId, req.tool, DryRun,
                      Some(Obj(Put(red.data.fields, "approval_id", Str(f.approvalId)))), None, Some(f.approvalId), None,
                      red.Status(), red.redactedFields, red.matchedPatterns),
             NewApproval(f.approvalId, Approval(req.tool, res.resourceId, res.proposedChange, req.principal.agentId,
                                                req.principal.role, Pending, None)),
             Some(args))
    else Routed(FaultResponse(req, f, res), Nothing, Some(args))
  }

  /** The key a submission runs under: the client's, or a generated one when it gave none or an empty one. */
  function EffectiveKey(req: Request, f: Fresh): string
  {
    if req.key.Some? && req.key.value != "" then req.key.value else f.key
  }

  function QueuedResponse(req: Request, f: Fresh, jobId: string): Response
  {
    Response(f.requestId, f.traceId, req.tool, Enqueued, None, Some(jobId), None, None, Clean, [], [])
  }

  function NewJob(req: Request, args: Dict, f: Fresh): Job
  {
    Job(f.traceId, f.requestId, req.tool, EffectiveKey(req, f), req.principal.subject, req.principal.agentId,
        req.principal.role, [Field("arguments", Obj(args))], Queued, 0, None, None, None)
  }

  function SubmissionKey(c: Deployment, req: Request, f: Fresh): KeyRow
  {
    KeyRow(req.tool, f.jobId, c.hash(req.tool, req.arguments), false, None)
  }

  /** The message of a submission. */
  function SubmissionBody(req: Request, args: Dict, f: Fresh): Body
  {
    Body(Some(f.jobId), Some(EffectiveKey(req, f)), req.tool, f.traceId, args)
  }

  function RouteAsync(c: Deployment, keys: map<string, KeyRow>, req: Request, args: Dict, f: Fresh): Routed
  {
    var key := EffectiveKey(req, f);
    if key in keys then Routed(QueuedResponse(req, f, keys[key].jobId), Nothing, None)
    else
      Routed(QueuedResponse(req, f, f.jobId),
             Enqueue(key, SubmissionKey(c, req, f), f.jobId, NewJob(req, args, f), SubmissionBody(req, args, f)),
             None)
  }

  /** `args.get("approved_change_id")` when it names a record. */
  function CitedApproval(args: Dict, approvals: map<string, Approval>): Option<string>
  {
    match Get(args, "approved_change_id")
    case Some(Str(id)) => if id != "" && id in approvals then Some(id) else None
    case _ => None
  }

  function RouteDestructive(c: Deployment, approvals: map<string, Approval>, req: Request, args: Dict, f: Fresh,
                            res: HandlerResult): Routed
    requires req.tool in c.registry
  {
    if !c.registry[req.tool].enabled then Routed(Refusal(req, f, Denied, "tool_disabled"), Nothing, None)
    else if c.approvalToken == "" || req.approvalToken != Some(c.approvalToken) then
      Routed(Refusal(req, f, Denied, "APPROVAL_REQUIRED"), Nothing, None)
    else
      var cited := CitedApproval(args, approvals);
      if cited.None? || approvals[cited.value].status != Approved then
        Routed(Refusal(req, f, Denied, "APPROVAL_NOT_APPROVED"), Nothing, None)
      else if res.Returned? then
        var red := RedactOutput(c, req, res.output);
        Routed(Response(f.requestId, f.traceId, req.tool, Executed, Some(red.data), None, cited, None,
                        red.Status(), [], []),
               Consume(cited.value, req.principal.subject), Some(args))
      else Routed(FaultResponse(req, f, res), Nothing, Some(args))
  }

  /** The fixed order of gates: registry, RBAC, validation, then destructive, dry run, async, sync. */
  function Route(c: Deployment, t: Db, req: Request, f: Fresh, res: HandlerResult): Routed
  {
    if req.tool !in c.registry then Routed(Refusal(req, f, Denied, "UNKNOWN_TOOL"), Nothing, None)
    else
      var spec := c.registry[req.tool];
      var gate := Evaluate(req.principal.role, spec.requiredRoles, c.knownRoles, spec.enabled);
      if gate != Allowed then Routed(Refusal(req, f, Denied, gate.Code()), Nothing, None)
      else
        match spec.validate(req.arguments)
        case Err(_) => Routed(Refusal(req, f, Faulted, "INVALID_ARGUMENTS"), Nothing, None)
        case Ok(args) =>
          if spec.classification == Destructive then RouteDestructive(c, t.approvals, req, args, f, res)
          else if spec.dryRunRequired then RouteDryRun(c, req, args, f, res)
          else if spec.mode == Async then RouteAsync(c, t.keys, req, args, f)
          else RouteSync(c, req, args, f, res)
  }

  function Enact(c: Deployment, t: Db, change: Change, now: int): Db
  {
    match change
    case Nothing => t
    case NewApproval(id, approval) => t.(approvals := t.approvals[id := approval])
    case Consume(id, approver) =>
      if id in t.approvals
      then t.(approvals := t.approvals[id := t.approvals[id].(status := Consumed, approvedBy := Some(approver))])
      else t
    case Enqueue(key, keyRow, jobId, job, body) =>
      t.(keys := t.keys[key := keyRow], jobs := t.jobs[jobId := job], rows := Published(t.rows, c.queue, body, now))
  }

  function CallRow(c: Deployment, req: Request, r: Response): ToolCall
  {
    ToolCall(r.traceId, r.requestId, req.principal.subject, req.principal.agentId, req.principal.role, req.tool,
             c.hash(req.tool, req.arguments), r.redaction, r.decision, r.errorCode)
  }

  function CallEvent(req: Request, r: Response): Event
  {
    Event(r.traceId, r.requestId, ToolEvent(r.decision), r.decision, req.tool, req.principal.subject,
          req.principal.agentId, req.principal.role,
          [Field("error_code", if r.errorCode.Some? then Str(r.errorCode.value) else Null)])
  }

  /** `invoke`: the routed change and the two audit rows, in one commit. */
  function Invoke(c: Deployment, t: Db, req: Request, f: Fresh, res: HandlerResult, now: int): Db
  {
    var r := Route(c, t, req, f, res);
    var after := Enact(c, t, r.change, now);
    after.(calls := after.calls + [CallRow(c, req, r.response)], events := after.events + [CallEvent(req, r.response)])
  }

  /** A submission whose publish is committed and whose session is still open. */
  datatype Submission = Submission(req: Request, f: Fresh, args: Dict)

  /** The rest of a submission: key, job and the two audit rows. */
  function Concluded(c: Deployment, t: Db, s: Submission): Db
  {
    var response := QueuedResponse(s.req, s.f, s.f.jobId);
    t.(keys := t.keys[EffectiveKey(s.req, s.f) := SubmissionKey(c, s.req, s.f)],
       jobs := t.jobs[s.f.jobId := NewJob(s.req, s.args, s.f)],
       calls := t.calls + [CallRow(c, s.req, response)], events := t.events + [CallEvent(s.req, response)])
  }

  /**
   * The tables after each session of an invocation. The publish of a new submission is a session of its own, inside
   * and hence before the one that holds everything else.
   */
  function InvokeCommits(c: Deployment, t: Db, req: Request, f: Fresh, res: HandlerResult, now: int): seq<Db>
  {
    var change := Route(c, t, req, f, res).change;
    (if change.Enqueue? then [t.(rows := Published(t.rows, c.queue, change.body, now))] else [])
    + [Invoke(c, t, req, f, res, now)]
  }

  function GrantEvent(who: Principal, tool: string, approvalId: string): Event
  {
    Event("", "", ApprovalGranted, Granted, tool, who.subject, who.agentId, who.role,
          [Field("approval_id", Str(approvalId))])
  }

  /** `approve`: admin only, existing records only, whatever their status. */
  predicate MayApprove(t: Db, who: Principal, approvalId: string)
  {
    who.role == ADMIN_ROLE && approvalId in t.approvals
  }

  function Approve(t: Db, who: Principal, approvalId: string): Db
    requires MayApprove(t, who, approvalId)
  {
    var approval := t.approvals[approvalId].(status := Approved, approvedBy := Some(who.subject));
    t.(approvals := t.approvals[approvalId := approval],
       events := t.events + [GrantEvent(who, t.approvals[approvalId].tool, approvalId)])
  }

  /** The routing, gate by gate. */
  lemma RouteCases(c: Deployment, t: Db, req: Request, f: Fresh, res: HandlerResult)
    ensures var r := Route(c, t, req, f, res);
            && (req.tool !in c.registry ==> r == Routed(Refusal(req, f, Denied, "UNKNOWN_TOOL"), Nothing, None))
            && (req.tool in c.registry ==>
                  var spec := c.registry[req.tool];
                  var gate := Evaluate(req.principal.role, spec.requiredRoles, c.knownRoles, spec.enabled);
                  if gate != Allowed then r == Routed(Refusal(req, f, Denied, gate.Code()), Nothing, None)
                  else if spec.validate(req.arguments).Err?
                  then r == Routed(Refusal(req, f, Faulted, "INVALID_ARGUMENTS"), Nothing, None)
                  else
                    var args := spec.validate(req.arguments).value;
                    r == if spec.classification == Destructive then RouteDestructive(c, t.approvals, req, args, f, res)
                         else if spec.dryRunRequired then RouteDryRun(c, req, args, f, res)
                         else if spec.mode == Async then RouteAsync(c, t.keys, req, args, f)
                         else RouteSync(c, req, args, f, res))
  {
  }

  lemma InvokeIs(c: Deployment, t: Db, req: Request, f: Fresh, res: HandlerResult, now: int)
    ensures var r, after := Route(c, t, req, f, res), Invoke(c, t, req, f, res, now);
            && after == Enact(c, t, r.change, now).(calls := t.calls + [CallRow(c, req, r.response)],
                                                    events := t.events + [CallEvent(req, r.response)])
            && InvokeCommits(c, t, req, f, res, now)
               == (if r.change.Enqueue? then [t.(rows := Published(t.rows, c.queue, r.change.body, now))] else [])
                  + [after]
  {
  }

  // ---------------------------------------------------------------- the executor

  class Executor {
    const c: Deployment
    const db: Database
    const repo: Repository
    const queue: Queue

    constructor (c: Deployment, db: Database)
      ensures this.c == c && this.db == db && Wired()
    {
      this.c, this.db := c, db;
      this.repo := new Repository(db);
      this.queue := new Queue(db, c.queue, c.maxDelivery);
    }

    /** The collaborators work on one database and one queue. */
    predicate Wired()
    {
      repo.db == db && queue.db == db && queue.name == c.queue && queue.maxDelivery == c.maxDelivery
    }

    /** `res` is what the tool would yield if it runs; `ran` tells whether, and with which arguments, it did. */
    method InvokeTool(req: Request, f: Fresh, res: HandlerResult, now: int)
      returns (response: Response, ran: Option<Dict>)
      requires Wired()
      modifies db
      ensures response == Route(c, old(db.View()), req, f, res).response
      ensures ran == Route(c, old(db.View()), req, f, res).ran
      ensures db.View() == Invoke(c, old(db.View()), req, f, res, now)
      ensures db.log == old(db.log) + InvokeCommits(c, old(db.View()), req, f, res, now)
    {
      hide RouteSync; hide RouteDryRun; hide RouteAsync; hide RouteDestructive; hide CallRow; hide CallEvent;
      hide Refusal; hide Route; hide Invoke; hide InvokeCommits;
      RouteCases(c, db.View(), req, f, res);
      InvokeIs(c, db.View(), req, f, res, now);
      ran := None;
      if req.tool !in c.registry {
        response := Refusal(req, f, Denied, "UNKNOWN_TOOL");
        Finish(req, response);
        return;
      }
      var spec := c.registry[req.tool];
      var gate := Evaluate(req.principal.role, spec.requiredRoles, c.knownRoles, spec.enabled);
      if gate != Allowed {
        response := Refusal(req, f, Denied, gate.Code());
        Finish(req, response);
        return;
      }
      var validated := spec.validate(req.arguments);
      if validated.Err? {
        response := Refusal(req, f, Faulted, "INVALID_ARGUMENTS");
        Finish(req, response);
        return;
      }
      if spec.classification == Destructive {
        response, ran := HandleDestructive(req, validated.value, f, res);
      } else if spec.dryRunRequired {
        response, ran := HandleDryRun(req, validated.value, f, res);
      } else if spec.mode == Async {
        response := HandleAsync(req, validated.value, f, now);
      } else {
        response, ran := HandleSync(req, validated.value, f, res);
      }
      Finish(req, response);
    }

    /** `finish`, and the end of the session around it. */
    method Finish(req: Request, response: Response)
      requires Wired()
      modifies db`calls, db`events, db`log
      ensures db.calls == old(db.calls) + [CallRow(c, req, response)]
      ensures db.events == old(db.events) + [CallEvent(req, response)]
      ensures db.log == old(db.log) + [db.View()]
    {
      repo.RecordToolCall(CallRow(c, req, response));
      repo.RecordEvent(CallEvent(req, response));
      db.EndSession();
    }

    method HandleSync(req: Request, args: Dict, f: Fresh, res: HandlerResult)
      returns (response: Response, ran: Option<Dict>)
      requires req.tool in c.registry
      ensures Routed(response, Nothing, ran) == RouteSync(c, req, args, f, res)
    {
      ran := Some(args);
      if !res.Returned? {
        response := FaultResponse(req, f, res);
        return;
      }
      var red := RunRedactOutput(req, res.output);
      response := Response(f.requestId, f.traceId, req.tool, Executed, Some(red.data), None, None, None,
                           red.View().Status(), red.redactedFields, red.matchedPatterns);
    }

    method RunRedactOutput(req: Request, output: Dict) returns (red: RedactionResult)
      requires req.tool in c.registry
      ensures fresh(red) && red.View() == RedactOutput(c, req, output)
    {
      var spec := c.registry[req.tool];
      var allowRaw := req.principal.role in spec.rawPiiRoles;
      red := RunRedact(Policy(c.patterns, spec.sensitiveFields, allowRaw), Obj(output));
    }

    method HandleDryRun(req: Request, args: Dict, f: Fresh, res: HandlerResult)
      returns (response: Response, ran: Option<Dict>)
      requires Wired() && req.tool in c.registry
      modifies db`approvals
      ensures response == RouteDryRun(c, req, args, f, res).response && ran == RouteDryRun(c, req, args, f, res).ran
      ensures !RouteDryRun(c, req, args, f, res).change.Enqueue?
      ensures db.View() == Enact(c, old(db.View()), RouteDryRun(c, req, args, f, res).change, 0)
    {
      ran := Some(args);
      if !res.Returned? {
        response := FaultResponse(req, f, res);
        return;
      }
      repo.CreateApproval(f.approvalId, Approval(req.tool, res.resourceId, res.proposedChange, req.principal.agentId,
                                                 req.principal.role, Pending, None));
      var red := RunRedactOutput(req, res.output);
      var redacted := Put(red.data.fields, "approval_id", Str(f.approvalId));
      response := Response(f.requestId, f.traceId, req.tool, DryRun, Some(Obj(redacted)), None, Some(f.approvalId),
                           None,
                           red.View().Status(), red.redactedFields, red.matchedPatterns);
    }

    /** The publish commits first; the reservation and the job become visible when the caller's session ends. */
    method HandleAsync(req: Request, args: Dict, f: Fresh, now: int) returns (response: Response)
      requires Wired()
      modifies db`keys, db`jobs, db`rows, db`log
      ensures response == RouteAsync(c, old(db.keys), req, args, f).response
      ensures RouteAsync(c, old(db.keys), req, args, f).ran.None?
      ensures db.View() == Enact(c, old(db.View()), RouteAsync(c, old(db.keys), req, args, f).change, now)
      ensures var change := RouteAsync(c, old(db.keys), req, args, f).change;
              db.log == old(db.log) + if change.Enqueue? then [old(db.View()).(rows := db.rows)] else []
    {
      var key := if req.key.Some? && req.key.value != "" then req.key.value else f.key;
      var existing := repo.GetIdempotency(key);
      if existing.Some? {
        return QueuedResponse(req, f, existing.value.jobId);
      }
      queue.Publish(SubmissionBody(req, args, f), now);
      var conflict := repo.ReserveIdempotency(key, req.tool, c.hash(req.tool, req.arguments), f.jobId);
      if conflict {
        assert false;  // the lookup and the reservation share one session
      }
      repo.CreateJob(f.jobId, NewJob(req, args, f));
      response := QueuedResponse(req, f, f.jobId);
    }

    method HandleDestructive(req: Request, args: Dict, f: Fresh, res: HandlerResult)
      returns (response: Response, ran: Option<Dict>)
      requires Wired() && req.tool in c.registry
      modifies db`approvals
      ensures response == RouteDestructive(c, old(db.approvals), req, args, f, res).response
      ensures ran == RouteDestructive(c, old(db.approvals), req, args, f, res).ran
      ensures !RouteDestructive(c, old(db.approvals), req, args, f, res).change.Enqueue?
      ensures db.View() == Enact(c, old(db.View()), RouteDestructive(c, old(db.approvals), req, args, f, res).change, 0)
    {
      ran := None;
      if !c.registry[req.tool].enabled {
        response := Refusal(req, f, Denied, "tool_disabled");
        return;
      }
      if c.approvalToken == "" || req.approvalToken.None? || req.approvalToken.value == "" ||
         req.approvalToken.value != c.approvalToken {
        response := Refusal(req, f, Denied, "APPROVAL_REQUIRED");
        return;
      }
      var cited := CitedApproval(args, db.approvals);
      var approval := None;
      if cited.Some? {
        approval := repo.GetApproval(cited.value);
      }
      if approval.None? || approval.value.status != Approved {
        response := Refusal(req, f, Denied, "APPROVAL_NOT_APPROVED");
        return;
      }
      ran := Some(args);
      if !res.Returned? {
        response := FaultResponse(req, f, res);
        return;
      }
      repo.SetApproval(cited.value, Consumed, req.principal.subject);
      var red := RunRedactOutput(req, res.output);
      response := Response(f.requestId, f.traceId, req.tool, Executed, Some(red.data), None, cited, None,
                           red.View().Status(), [], []);
    }

    /** The approval endpoint; false stands for its 403 and 404 answers. */
    method ApproveChange(who: Principal, approvalId: string) returns (granted: bool)
      requires Wired()
      modifies db`approvals, db`events, db`log
      ensures granted == MayApprove(old(db.View()), who, approvalId)
      ensures granted <==> who.role == "admin_agent" && approvalId in old(db.approvals)
      ensures db.View() == if granted then Approve(old(db.View()), who, approvalId) else old(db.View())
      ensures db.log == if granted then old(db.log) + [db.View()] else old(db.log)
    {
      if who.role != ADMIN_ROLE {
        return false;
      }
      var approval := repo.GetApproval(approvalId);
      if approval.None? {
        return false;
      }
      repo.SetApproval(approvalId, Approved, who.subject);
      repo.RecordEvent(GrantEvent(who, approval.value.tool, approvalId));
      db.EndSession();
      granted := true;
    }
  }

  // ---------------------------------------------------------------- one call

  /** The values of sensitive fields in the output of a handler the gateway runs reach neither response nor table. */
  lemma InvocationNonInterference(c: Deployment, t: Db, req: Request, f: Fresh, a: HandlerResult, b: HandlerResult,
                                  now: int)
    requires a.Returned? && b.Returned? && a.resourceId == b.resourceId && a.proposedChange == b.proposedChange
    requires req.tool in c.registry
    requires req.principal.role !in c.registry[req.tool].rawPiiRoles
    requires AgreeOutsideSensitive(Policy(c.patterns, c.registry[req.tool].sensitiveFields, false),
                                   Obj(a.output), Obj(b.output))
    ensures Route(c, t, req, f, a) == Route(c, t, req, f, b)
    ensures Invoke(c, t, req, f, a, now) == Invoke(c, t, req, f, b, now)
  {
    var policy := Policy(c.patterns, c.registry[req.tool].sensitiveFields, false);
    RedactionNonInterference(policy, Obj(a.output), Obj(b.output));
    assert RedactOutput(c, req, a.output) == RedactOutput(c, req, b.output);
  }

  /** A submission under a known key answers with the first job and touches only the two audit tables. */
  lemma DuplicateTouchesOnlyAudit(c: Deployment, t: Db, req: Request, args: Dict, f: Fresh, res: HandlerResult,
                                  now: int)
    requires Admits(c, req, args)
    requires c.registry[req.tool].classification != Destructive && !c.registry[req.tool].dryRunRequired
    requires c.registry[req.tool].mode == Async
    requires EffectiveKey(req, f) in t.keys
    ensures Route(c, t, req, f, res).response.jobId == Some(t.keys[EffectiveKey(req, f)].jobId)
    ensures var after := Invoke(c, t, req, f, res, now);
            after == t.(calls := after.calls, events := after.events)
            && |after.calls| == |t.calls| + 1 && |after.events| == |t.events| + 1
  {
  }

  /** The destructive gate: a token is configured, the caller shows it, and the cited approval is approved. */
  predicate GateOpen(c: Deployment, t: Db, req: Request, args: Dict)
  {
    && c.approvalToken != "" && req.approvalToken == Some(c.approvalToken)
    && CitedApproval(args, t.approvals).Some?
    && t.approvals[CitedApproval(args, t.approvals).value].status == Approved
  }

  /**
   * The gateway runs a handler on `args` exactly for an admitted call of a tool that is not plain async, with
   * the gate open when the tool is destructive.
   */
  lemma WhatRuns(c: Deployment, t: Db, req: Request, f: Fresh, res: HandlerResult, args: Dict)
    ensures Route(c, t, req, f, res).ran == Some(args) <==>
            && Admits(c, req, args) && !AsyncOnly(c.registry[req.tool])
            && (c.registry[req.tool].classification == Destructive ==> GateOpen(c, t, req, args))
  {
  }

  /** Each decision, and the code that goes with it, has exactly one cause. */
  lemma DecisionIsExact(c: Deployment, t: Db, req: Request, f: Fresh, res: HandlerResult)
    ensures var r := Route(c, t, req, f, res);
            var decision := r.response.decision;
            && (decision == Denied <==>
                  || !Permitted(c, req)
                  || (c.registry[req.tool].classification == Destructive
                      && exists args :: Admits(c, req, args) && !GateOpen(c, t, req, args)))
            && (decision == Faulted <==>
                  && Permitted(c, req)
                  && (c.registry[req.tool].validate(req.arguments).Err? || (r.ran.Some? && !res.Returned?)))
            && (decision == Executed <==>
                  && r.ran.Some? && res.Returned?
                  && (c.registry[req.tool].classification == Destructive || !c.registry[req.tool].dryRunRequired))
            && (decision == DryRun <==>
                  && r.ran.Some? && res.Returned?
                  && c.registry[req.tool].classification != Destructive && c.registry[req.tool].dryRunRequired)
            && (decision == Enqueued <==> exists args :: Admits(c, req, args) && AsyncOnly(c.registry[req.tool]))
            && (r.response.errorCode.Some? <==> decision == Denied || decision == Faulted)
            && (r.response.result.Some? <==> decision == Executed || decision == DryRun)
            && (r.ran.Some? && !res.Returned? ==>
                  r.response.errorCode == Some(if res.ToolFault? then res.code else "INTERNAL_ERROR"))
  {
    if Permitted(c, req) && c.registry[req.tool].validate(req.arguments).Ok? {
      assert Admits(c, req, c.registry[req.tool].validate(req.arguments).value);
    }
  }

  /**
   * The codes of the calls that no handler saw, gate by gate. Such a call, and an accepted submission, is answered
   * without result, approval and redaction report.
   */
  lemma CodesAreExact(c: Deployment, t: Db, req: Request, f: Fresh, res: HandlerResult)
    ensures var r, role := Route(c, t, req, f, res), req.principal.role;
            var denied, code := r.response.decision == Denied, r.response.errorCode;
            var destructive := req.tool in c.registry && c.registry[req.tool].classification == Destructive;
            && (denied && code == Some("UNKNOWN_TOOL") <==> req.tool !in c.registry)
            && (denied && code == Some("unknown_role") <==> req.tool in c.registry && role !in c.knownRoles)
            && (denied && code == Some("tool_disabled") <==>
                  req.tool in c.registry && role in c.knownRoles && !c.registry[req.tool].enabled)
            && (denied && code == Some("role_not_permitted") <==>
                  && req.tool in c.registry && role in c.knownRoles && c.registry[req.tool].enabled
                  && role !in c.registry[req.tool].requiredRoles)
            && (r.response.decision == Faulted && r.ran.None? <==>
                  Permitted(c, req) && c.registry[req.tool].validate(req.arguments).Err?)
            && (r.response.decision == Faulted && r.ran.None? ==> code == Some("INVALID_ARGUMENTS"))
            && (denied && code == Some("APPROVAL_REQUIRED") <==>
                  && destructive && (exists args :: Admits(c, req, args))
                  && (c.approvalToken == "" || req.approvalToken != Some(c.approvalToken)))
            && (denied && code == Some("APPROVAL_NOT_APPROVED") <==>
                  && destructive && c.approvalToken != "" && req.approvalToken == Some(c.approvalToken)
                  && exists args :: Admits(c, req, args) && !CitesApproved(t, args))
            && (r.ran.None? ==>
                  && r.response.result == None && r.response.approvalId == None && r.response.redaction == Clean
                  && r.response.redactedFields == [] && r.response.matchedPatterns == []
                  && (r.response.jobId.Some? <==> r.response.decision == Enqueued))
  {
    if Permitted(c, req) && c.registry[req.tool].validate(req.arguments).Ok? {
      assert Admits(c, req, c.registry[req.tool].validate(req.arguments).value);
    }
  }

  /** The arguments name an approval that stands approved. */
  predicate CitesApproved(t: Db, args: Dict)
  {
    && Get(args, "approved_change_id").Some? && Get(args, "approved_change_id").value.Str?
    && var id := Get(args, "approved_change_id").value.s;
       id != "" && id in t.approvals && t.approvals[id].status == Approved
  }

  // ---------------------------------------------------------------- what a client gets to see

  /**
   * `data` is what this caller may see of the output, and status and lists report what was hidden: each leaf is masked,
   * swept or kept under the tool's sensitive fields, raw only for a role that the tool lists as raw.
   */
  ghost predicate Shows(c: Deployment, req: Request, output: Dict, data: Json, status: RedactionStatus,
                        fields: seq<string>, patterns: seq<string>)
    requires req.tool in c.registry
  {
    var spec := c.registry[req.tool];
    var policy := Policy(c.patterns, spec.sensitiveFields, req.principal.role in spec.rawPiiRoles);
    && TreeRedacted(policy, Obj(output), data)
    && ListsRight(policy, Obj(output), fields, patterns) && ListsInOrder(policy, Obj(output), fields, patterns)
    && (status == Clean <==> fields == [] && patterns == [])
  }

  /** The answer to a call whose handler raised. */
  predicate AnswersFault(response: Response, res: HandlerResult)
    requires !res.Returned?
  {
    && response.decision == Faulted && response.result == None && response.jobId == None && response.approvalId == None
    && response.errorCode == Some(if res.ToolFault? then res.code else "INTERNAL_ERROR")
    && response.redaction == Clean && response.redactedFields == [] && response.matchedPatterns == []
  }

  ghost predicate AnswersSync(c: Deployment, req: Request, response: Response, output: Dict)
    requires req.tool in c.registry
  {
    && response.decision == Executed && response.result.Some? && response.errorCode == None
    && response.jobId == None && response.approvalId == None
    && Shows(c, req, output, response.result.value, response.redaction, response.redactedFields,
             response.matchedPatterns)
  }

  /** The redacted output under the same keys in the same order, with the approval's id set. */
  ghost predicate AnswersDryRun(c: Deployment, req: Request, response: Response, output: Dict)
    requires req.tool in c.registry
  {
    && response.decision == DryRun && response.result.Some? && response.result.value.Obj?
    && response.errorCode == None && response.jobId == None && response.approvalId.Some?
    && exists shown :: Shows(c, req, output, Obj(shown), response.redaction, response.redactedFields,
                             response.matchedPatterns)
                       && IsSet(shown, response.result.value.fields, "approval_id", Str(response.approvalId.value))
  }

  /** The two lists are not reported, the status is. */
  ghost predicate AnswersDestructive(c: Deployment, req: Request, args: Dict, response: Response, output: Dict)
    requires req.tool in c.registry
  {
    && response.decision == Executed && response.result.Some? && response.errorCode == None && response.jobId == None
    && response.approvalId.Some? && Get(args, "approved_change_id") == Some(Str(response.approvalId.value))
    && response.redactedFields == [] && response.matchedPatterns == []
    && exists fields, patterns ::
         Shows(c, req, output, response.result.value, response.redaction, fields, patterns)
  }

  /** The answer to a call that ran its handler on `args` with outcome `res`. */
  ghost predicate AnswersRun(c: Deployment, req: Request, args: Dict, response: Response, res: HandlerResult)
    requires req.tool in c.registry
  {
    var spec := c.registry[req.tool];
    if !res.Returned? then AnswersFault(response, res)
    else if spec.classification == Destructive then AnswersDestructive(c, req, args, response, res.output)
    else if spec.dryRunRequired then AnswersDryRun(c, req, response, res.output)
    else AnswersSync(c, req, response, res.output)
  }

  lemma RedactOutputShows(c: Deployment, req: Request, output: Dict)
    requires req.tool in c.registry
    ensures var red := RedactOutput(c, req, output);
            Shows(c, req, output, red.data, red.Status(), red.redactedFields, red.matchedPatterns)
  {
    var spec := c.registry[req.tool];
    var policy := Policy(c.patterns, spec.sensitiveFields, req.principal.role in spec.rawPiiRoles);
    RedactionIsExact(policy, Obj(output));
    ListsAreExact(policy, Obj(output));
  }

  /** Every call whose handler ran is answered with the outcome of that run and nothing else. */
  lemma AnswerIsOfTheRun(c: Deployment, t: Db, req: Request, f: Fresh, res: HandlerResult)
    requires Route(c, t, req, f, res).ran.Some?
    ensures req.tool in c.registry
    ensures AnswersRun(c, req, Route(c, t, req, f, res).ran.value, Route(c, t, req, f, res).response, res)
  {
    hide Shows; hide RedactOutput; hide Put; hide IsSet;
    if res.Returned? {
      RedactOutputShows(c, req, res.output);
      var red := RedactOutput(c, req, res.output);
      PutSets(red.data.fields, "approval_id", Str(f.approvalId));
    }
  }

  /**
   * Approvals move only when a handler returned: a dry run creates one, a destructive execution consumes the one it
   * cites. A refused call, and a call whose handler raised, leaves everything but the two audit tables alone.
   */
  lemma WhatMovesApprovals(c: Deployment, t: Db, req: Request, f: Fresh, res: HandlerResult, now: int)
    ensures var r, after := Route(c, t, req, f, res), Invoke(c, t, req, f, res, now);
            var destructive := req.tool in c.registry && c.registry[req.tool].classification == Destructive;
            && (r.change.NewApproval? <==>
                  r.ran.Some? && res.Returned? && !destructive && c.registry[req.tool].dryRunRequired)
            && (r.change.NewApproval? ==>
                  after.approvals
                  == t.approvals[f.approvalId := Approval(req.tool, res.resourceId, res.proposedChange,
                                                          req.principal.agentId, req.principal.role, Pending, None)])
            && (!r.change.NewApproval? && !r.change.Consume? ==> after.approvals == t.approvals)
            && (r.change.Consume? <==> r.ran.Some? && res.Returned? && destructive)
            && (r.change.Consume? ==>
                  var id := r.change.consumed;
                  && CitedApproval(r.ran.value, t.approvals) == Some(id)
                  && after.approvals == t.approvals[id := after.approvals[id]]
                  && after.approvals[id]
                     == t.approvals[id].(status := Consumed, approvedBy := Some(req.principal.subject)))
            && (r.response.errorCode.Some? ==> after == t.(calls := after.calls, events := after.events))
  {
  }

  /** What a routed submission enqueues: a new key, a new pristine job, and a row that names both. */
  predicate FreshSubmission(c: Deployment, t: Db, req: Request, f: Fresh, args: Dict, change: Change)
  {
    && change.Enqueue? && change.key !in t.keys && change.jobId == f.jobId
    && change.key == (if req.key.Some? && req.key.value != "" then req.key.value else f.key)
    && change.keyRow == KeyRow(req.tool, f.jobId, c.hash(req.tool, req.arguments), false, None)
    && change.job == Job(f.traceId, f.requestId, req.tool, change.key, req.principal.subject, req.principal.agentId,
                         req.principal.role, [Field("arguments", Obj(args))], Queued, 0, None, None, None)
    && change.body == Body(Some(f.jobId), Some(change.key), req.tool, f.traceId, args)
  }

  /** Only an admitted call of a plain async tool enqueues; it does so exactly when its key is new. */
  lemma WhatEnqueues(c: Deployment, t: Db, req: Request, f: Fresh, res: HandlerResult)
    ensures var change := Route(c, t, req, f, res).change;
            change.Enqueue? <==>
            exists args :: Admits(c, req, args) && AsyncOnly(c.registry[req.tool]) && EffectiveKey(req, f) !in t.keys
                           && FreshSubmission(c, t, req, f, args, change)
  {
    if Route(c, t, req, f, res).change.Enqueue? {
      var args := c.registry[req.tool].validate(req.arguments).value;
      assert Admits(c, req, args);
      assert FreshSubmission(c, t, req, f, args, Route(c, t, req, f, res).change);
    }
  }

  /** The tables after an invocation, one by one. */
  lemma InvokeTables(c: Deployment, t: Db, req: Request, f: Fresh, res: HandlerResult, now: int)
    ensures var change, after := Route(c, t, req, f, res).change, Invoke(c, t, req, f, res, now);
            && (!change.Enqueue? ==> after.rows == t.rows && after.jobs == t.jobs && after.keys == t.keys)
            && (change.Enqueue? ==>
                  && after.rows == t.rows + [Row(c.queue, change.body, Available, 0, now, None)]
                  && after.jobs == t.jobs[change.jobId := change.job]
                  && after.keys == t.keys[change.key := change.keyRow])
            && |after.calls| == |t.calls| + 1 && |after.events| == |t.events| + 1
            && after.calls[..|t.calls|] == t.calls && after.events[..|t.events|] == t.events
  {
  }
}
