/** The audit trail tells, row by row and in order, what clients saw over every run. */
module AuditTrail {
  import opened Values
  import opened Tables
  import opened Catalog
  import opened Gateway
  import opened Worker
  import opened Protocol

  /** The invocations that clients saw answered. */
  function Invocations(trace: seq<Observation>): (r: seq<Observation>)
    ensures forall o :: o in r ==> o.Invoked?
  {
    if trace == [] then []
    else
      var last := trace[|trace| - 1];
      Invocations(trace[..|trace| - 1]) + (if last.Invoked? then [last] else [])
  }

  predicate ByGateway(e: Event)
  {
    e.kind.ToolEvent? || e.kind.ApprovalGranted?
  }

  /** The events that gateway and approval endpoint wrote. */
  function GatewayEvents(events: seq<Event>): seq<Event>
  {
    if events == [] then []
    else
      var last := events[|events| - 1];
      GatewayEvents(events[..|events| - 1]) + (if ByGateway(last) then [last] else [])
  }

  /** The call row names the caller, the tool, the answer's decision and error, and the hash of the raw arguments. */
  predicate Tells(c: Deployment, call: ToolCall, o: Observation)
    requires o.Invoked?
  {
    && call.requestId == o.response.requestId && call.traceId == o.response.traceId
    && Principal(call.userId, call.agentId, call.role) == o.req.principal
    && call.tool == o.req.tool && call.inputHash == c.hash(o.req.tool, o.req.arguments)
    && call.decision == o.response.decision && call.errorCode == o.response.errorCode
    && call.redaction == o.response.redaction
  }

  /** The event names the actor and what was decided. */
  predicate Reports(e: Event, o: Observation)
  {
    match o
    case Invoked(req, response) =>
      && e.kind == ToolEvent(response.decision) && e.decision == response.decision && e.tool == req.tool
      && e.requestId == response.requestId && e.traceId == response.traceId
      && Principal(e.userId, e.agentId, e.role) == req.principal
      && Get(e.detail, "error_code") == Some(if response.errorCode.Some? then Str(response.errorCode.value) else Null)
    case ApprovedBy(who, id) =>
      && e.kind == ApprovalGranted && e.decision == Granted && e.role == "admin_agent"
      && Principal(e.userId, e.agentId, e.role) == who
      && Get(e.detail, "approval_id") == Some(Str(id))
  }

  ghost predicate TrailOk(c: Deployment, w: World)
  {
    var invocations, events := Invocations(w.trace), GatewayEvents(w.t.events);
    && |w.t.calls| == |invocations|
    && (forall i :: 0 <= i < |invocations| ==> Tells(c, w.t.calls[i], invocations[i]))
    && |events| == |w.trace|
    && (forall i :: 0 <= i < |w.trace| ==> Reports(events[i], w.trace[i]))
  }

  lemma ObservedOne(trace: seq<Observation>, o: Observation, events: seq<Event>, e: Event)
    ensures Invocations(trace + [o]) == Invocations(trace) + (if o.Invoked? then [o] else [])
    ensures GatewayEvents(events + [e]) == GatewayEvents(events) + (if ByGateway(e) then [e] else [])
  {
    assert (trace + [o])[..|trace|] == trace && (events + [e])[..|events|] == events;
  }

  /** The events of a worker's commit are not the gateway's. */
  lemma CommitIsNotGateway(c: Deployment, t: Db, msg: Message, phase: Phase, now: int)
    ensures var u := Commit(c, t, msg, phase, now).db;
            u.calls == t.calls && GatewayEvents(u.events) == GatewayEvents(t.events)
  {
    var u := Commit(c, t, msg, phase, now).db;
    if |u.events| > |t.events| {
      assert u.events == t.events + [u.events[|t.events|]];
      assert u.events[..|t.events|] == t.events;
    }
  }

  lemma ResponseNamesRequest(c: Deployment, t: Db, req: Request, f: Fresh, res: HandlerResult)
    ensures var response := Route(c, t, req, f, res).response;
            response.requestId == f.requestId && response.traceId == f.traceId && response.tool == req.tool
  {
  }

  lemma CallKeepsTrail(c: Deployment, w: World, req: Request, f: Fresh, res: HandlerResult)
    requires TrailOk(c, w)
    ensures TrailOk(c, AfterCall(c, w, req, f, res))
  {
    var r := Route(c, w.t, req, f, res);
    var v := AfterCall(c, w, req, f, res);
    InvokeAppends(c, w.t, req, f, res, w.clock);
    hide Route; hide Invoke;
    ObservedOne(w.trace, Invoked(req, r.response), w.t.events, CallEvent(req, r.response));
    assert Tells(c, CallRow(c, req, r.response), Invoked(req, r.response));
    assert Reports(CallEvent(req, r.response), Invoked(req, r.response));
  }

  lemma InvokeAppends(c: Deployment, t: Db, req: Request, f: Fresh, res: HandlerResult, now: int)
    ensures var response, after := Route(c, t, req, f, res).response, Invoke(c, t, req, f, res, now);
            && after.calls == t.calls + [CallRow(c, req, response)]
            && after.events == t.events + [CallEvent(req, response)]
  {
  }

  lemma ConcludeKeepsTrail(c: Deployment, w: World, j: string)
    requires TrailOk(c, w) && CanConclude(w, j)
    ensures TrailOk(c, AfterConclude(c, w, j))
  {
    var s := w.open[j];
    var response := QueuedResponse(s.req, s.f, s.f.jobId);
    ObservedOne(w.trace, Invoked(s.req, response), w.t.events, CallEvent(s.req, response));
    assert Tells(c, CallRow(c, s.req, response), Invoked(s.req, response));
    assert Reports(CallEvent(s.req, response), Invoked(s.req, response));
  }

  lemma GrantKeepsTrail(c: Deployment, w: World, who: Principal, id: string)
    requires TrailOk(c, w) && MayApprove(w.t, who, id)
    ensures TrailOk(c, Apply(c, w, Grant(who, id)))
  {
    var e := GrantEvent(who, w.t.approvals[id].tool, id);
    ObservedOne(w.trace, ApprovedBy(who, id), w.t.events, e);
    assert Reports(e, ApprovedBy(who, id));
  }

  lemma StepKeepsTrail(c: Deployment, w: World, s: Step)
    requires TrailOk(c, w)
    ensures TrailOk(c, Apply(c, w, s))
  {
    match s
    case Call(req, f, res) =>
      if FreshIn(w, f) {
        CallKeepsTrail(c, w, req, f, res);
      }
    case Conclude(j) =>
      if CanConclude(w, j) {
        ConcludeKeepsTrail(c, w, j);
      }
    case Grant(who, id) =>
      if MayApprove(w.t, who, id) {
        GrantKeepsTrail(c, w, who, id);
      }
    case Work(i) =>
      if i < |w.hands| && Busy(w.hands[i]) {
        CommitIsNotGateway(c, w.t, w.hands[i].batch[w.hands[i].pos], w.hands[i].phase, w.clock);
      }
    case _ =>
  }

  lemma {:induction false} RunKeepsTrail(c: Deployment, w: World, steps: seq<Step>)
    requires TrailOk(c, w)
    ensures TrailOk(c, Run(c, w, steps))
    decreases |steps|
  {
    if steps != [] {
      StepKeepsTrail(c, w, steps[0]);
      RunKeepsTrail(c, Apply(c, w, steps[0]), steps[1..]);
    }
  }

  /**
   * Over every run the n-th call row tells the n-th answered invocation, and the n-th gateway event reports the n-th
   * thing clients saw: nothing is missing, doubled or out of order, whatever workers and crashes do in between.
   */
  lemma TrailTellsTheHistory(c: Deployment, workers: nat, steps: seq<Step>)
    ensures TrailOk(c, Run(c, Init(workers), steps))
  {
    RunKeepsTrail(c, Init(workers), steps);
  }

  // ---------------------------------------------------------------- request ids

  /** No two call rows carry one request id, nor does one of an open session. */
  ghost predicate RequestIdsOk(w: World)
  {
    && (forall m, n :: 0 <= m < n < |w.t.calls| ==> w.t.calls[m].requestId != w.t.calls[n].requestId)
    && (forall j, n :: j in w.open && 0 <= n < |w.t.calls| ==> w.open[j].f.requestId != w.t.calls[n].requestId)
    && (forall j, k :: j in w.open && k in w.open && w.open[j].f.requestId == w.open[k].f.requestId ==> j == k)
  }

  lemma CallKeepsRequestIds(c: Deployment, w: World, req: Request, f: Fresh, res: HandlerResult)
    requires RequestIdsOk(w) && FreshIn(w, f)
    ensures RequestIdsOk(AfterCall(c, w, req, f, res))
  {
    ResponseNamesRequest(c, w.t, req, f, res);
    InvokeAppends(c, w.t, req, f, res, w.clock);
    hide Route; hide Invoke;
  }

  lemma ReceiveKeepsCalls(c: Deployment, w: World, s: Step)
    requires s.Receive?
    ensures Apply(c, w, s).t.calls == w.t.calls && Apply(c, w, s).open == w.open
  {
  }

  lemma StepKeepsRequestIds(c: Deployment, w: World, s: Step)
    requires RequestIdsOk(w)
    ensures RequestIdsOk(Apply(c, w, s))
  {
    hide AfterCall; hide AfterReceive;
    match s
    case Receive(i, max, timeout) => ReceiveKeepsCalls(c, w, s);
    case Call(req, f, res) =>
      if FreshIn(w, f) {
        CallKeepsRequestIds(c, w, req, f, res);
      }
    case Work(i) =>
      if i < |w.hands| && Busy(w.hands[i]) {
        CommitIsNotGateway(c, w.t, w.hands[i].batch[w.hands[i].pos], w.hands[i].phase, w.clock);
        hide Commit;
      }
    case _ =>
  }

  lemma {:induction false} RunKeepsRequestIds(c: Deployment, w: World, steps: seq<Step>)
    requires RequestIdsOk(w)
    ensures RequestIdsOk(Run(c, w, steps))
    decreases |steps|
  {
    if steps != [] {
      StepKeepsRequestIds(c, w, steps[0]);
      RunKeepsRequestIds(c, Apply(c, w, steps[0]), steps[1..]);
    }
  }

  /** The call table never holds a request id twice, as its schema demands. */
  lemma RequestIdsAreUnique(c: Deployment, workers: nat, steps: seq<Step>, m: nat, n: nat)
    requires m < n < |Run(c, Init(workers), steps).t.calls|
    ensures Run(c, Init(workers), steps).t.calls[m].requestId != Run(c, Init(workers), steps).t.calls[n].requestId
  {
    RunKeepsRequestIds(c, Init(workers), steps);
  }

  /** Nor is a request id answered twice. */
  lemma AnswersHaveDistinctIds(c: Deployment, workers: nat, steps: seq<Step>, m: nat, n: nat)
    requires m < n < |Invocations(Run(c, Init(workers), steps).trace)|
    ensures var answers := Invocations(Run(c, Init(workers), steps).trace);
            answers[m].response.requestId != answers[n].response.requestId
  {
    TrailTellsTheHistory(c, workers, steps);
    RunKeepsRequestIds(c, Init(workers), steps);
    var w := Run(c, Init(workers), steps);
    assert Tells(c, w.t.calls[m], Invocations(w.trace)[m]) && Tells(c, w.t.calls[n], Invocations(w.trace)[n]);
  }
}
