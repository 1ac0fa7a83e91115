/** What clients of the gateway can rely on over every run: approvals, idempotent submission, provenance. */
module GatewayRuns {
  import opened Values
  import opened Tables
  import opened Catalog
  import opened Gateway
  import opened Worker
  import opened Protocol
  import opened QueueRuns
  import opened OpenSubmissions
  import opened DeliveryRuns
  import opened DeliveryTheorems
  import opened Accounting
  import opened AuditTrail

  // ---------------------------------------------------------------- approvals are a function of history

  /** A client saw a destructive tool execute on this approval. */
  predicate Executes(o: Observation, id: string)
  {
    o.Invoked? && o.response.decision == Executed && o.response.approvalId == Some(id)
  }

  /** A client got this approval id from a dry run. */
  predicate Proposes(o: Observation, id: string)
  {
    o.Invoked? && o.response.decision == DryRun && o.response.approvalId == Some(id)
  }

  predicate Approves(o: Observation, id: string)
  {
    o.ApprovedBy? && o.approvalId == id
  }

  /** Who proposed an approval and with which tool, its status, and who moved it there. */
  datatype Standing = Standing(
    tool: string, agent: string, role: string, status: ApprovalStatus, decidedBy: Option<string>)

  function RecordStanding(a: Approval): Standing
  {
    Standing(a.tool, a.agent, a.role, a.status, a.approvedBy)
  }

  /** What one more observation makes of an approval. */
  function Moved(before: Option<Standing>, o: Observation, id: string): Option<Standing>
  {
    if Proposes(o, id) then Some(Standing(o.req.tool, o.req.principal.agentId, o.req.principal.role, Pending, None))
    else if before.None? then None
    else if Approves(o, id) then Some(before.value.(status := Approved, decidedBy := Some(o.who.subject)))
    else if Executes(o, id) then Some(before.value.(status := Consumed, decidedBy := Some(o.req.principal.subject)))
    else before
  }

  /** The standing that the history gives the approval; None before a dry run created it. */
  function StandingOf(trace: seq<Observation>, id: string): Option<Standing>
  {
    if trace == [] then None
    else Moved(StandingOf(trace[..|trace| - 1], id), trace[|trace| - 1], id)
  }

  predicate IsApproved(s: Option<Standing>)
  {
    s.Some? && s.value.status == Approved
  }

  /** Executions follow an approval, approvals follow a dry run. */
  ghost predicate TraceOk(trace: seq<Observation>)
  {
    forall i, id :: 0 <= i < |trace| ==>
      && (Executes(trace[i], id) ==> IsApproved(StandingOf(trace[..i], id)))
      && (Approves(trace[i], id) ==> StandingOf(trace[..i], id).Some?)
  }

  ghost predicate ApprovalInv(w: World)
  {
    && TraceOk(w.trace)
    && forall id :: StandingOf(w.trace, id)
                    == if id in w.t.approvals then Some(RecordStanding(w.t.approvals[id])) else None
  }

  lemma ObserveKeepsTrace(trace: seq<Observation>, o: Observation)
    requires TraceOk(trace)
    requires forall id :: Executes(o, id) ==> IsApproved(StandingOf(trace, id))
    requires forall id :: Approves(o, id) ==> StandingOf(trace, id).Some?
    ensures TraceOk(trace + [o])
    ensures forall id :: StandingOf(trace + [o], id) == Moved(StandingOf(trace, id), o, id)
  {
    var after := trace + [o];
    assert after[..|trace|] == trace;
    forall i, id | 0 <= i < |after|
      ensures Executes(after[i], id) ==> IsApproved(StandingOf(after[..i], id))
      ensures Approves(after[i], id) ==> StandingOf(after[..i], id).Some?
    {
      if i < |trace| {
        assert after[i] == trace[i] && after[..i] == trace[..i];
      }
    }
  }

  lemma CallObserves(c: Deployment, w: World, req: Request, f: Fresh, res: HandlerResult)
    ensures var v, r := AfterCall(c, w, req, f, res), Route(c, w.t, req, f, res);
            && v.trace == w.trace + [Invoked(req, r.response)]
            && v.t.approvals == Enact(c, w.t, r.change, w.clock).approvals
  {
  }

  lemma CallKeepsApprovals(c: Deployment, w: World, req: Request, f: Fresh, res: HandlerResult)
    requires ApprovalInv(w) && FreshIds(w.t, f)
    ensures ApprovalInv(AfterCall(c, w, req, f, res))
  {
    hide Route; hide AfterCall; hide TraceOk; hide StandingOf;
    CallObserves(c, w, req, f, res);
    RouteAccounts(c, w.t, req, f, res);
    ObserveKeepsTrace(w.trace, Invoked(req, Route(c, w.t, req, f, res).response));
  }

  lemma GrantKeepsApprovals(c: Deployment, w: World, who: Principal, id: string)
    requires ApprovalInv(w) && MayApprove(w.t, who, id)
    ensures ApprovalInv(Apply(c, w, Grant(who, id)))
  {
    hide TraceOk; hide StandingOf;
    ObserveKeepsTrace(w.trace, ApprovedBy(who, id));
  }

  lemma ConcludeKeepsApprovals(c: Deployment, w: World, j: string)
    requires ApprovalInv(w) && CanConclude(w, j)
    ensures ApprovalInv(AfterConclude(c, w, j))
  {
    hide TraceOk; hide StandingOf;
    var s := w.open[j];
    ObserveKeepsTrace(w.trace, Invoked(s.req, QueuedResponse(s.req, s.f, s.f.jobId)));
  }

  lemma StepKeepsApprovals(c: Deployment, w: World, s: Step)
    requires ApprovalInv(w)
    ensures ApprovalInv(Apply(c, w, s))
  {
    match s
    case Call(req, f, res) =>
      if FreshIn(w, f) {
        hide ApprovalInv; hide AfterCall;
        CallKeepsApprovals(c, w, req, f, res);
      }
    case Conclude(j) =>
      if CanConclude(w, j) {
        ConcludeKeepsApprovals(c, w, j);
      }
    case Grant(who, id) =>
      if MayApprove(w.t, who, id) {
        GrantKeepsApprovals(c, w, who, id);
      }
    case Work(i) =>
      if i < |w.hands| && Busy(w.hands[i]) {
        CommitAccounts(c, w.t, w.hands[i].batch[w.hands[i].pos], w.hands[i].phase, w.clock);
        hide Commit;
      }
    case _ =>
  }

  lemma {:induction false} RunKeepsApprovals(c: Deployment, w: World, steps: seq<Step>)
    requires ApprovalInv(w)
    ensures ApprovalInv(Run(c, w, steps))
    decreases |steps|
  {
    if steps != [] {
      StepKeepsApprovals(c, w, steps[0]);
      RunKeepsApprovals(c, Apply(c, w, steps[0]), steps[1..]);
    }
  }

  /** The stored record of every approval stands where its history put it, and names who put it there. */
  lemma ApprovalStatusIsHistory(c: Deployment, workers: nat, steps: seq<Step>, id: string)
    ensures var w := Run(c, Init(workers), steps);
            StandingOf(w.trace, id) == if id in w.t.approvals then Some(RecordStanding(w.t.approvals[id])) else None
  {
    RunKeepsApprovals(c, Init(workers), steps);
  }

  lemma {:induction false} ApprovedSince(trace: seq<Observation>, i: nat, j: nat, id: string) returns (k: nat)
    requires i < j <= |trace| && Executes(trace[i], id) && IsApproved(StandingOf(trace[..j], id))
    ensures i < k < j && Approves(trace[k], id)
    decreases j
  {
    assert trace[..j][..j - 1] == trace[..j - 1];
    if Approves(trace[j - 1], id) {
      k := j - 1;
    } else {
      k := ApprovedSince(trace, i, j - 1, id);
    }
  }

  lemma {:induction false} ApprovedBefore(trace: seq<Observation>, j: nat, id: string) returns (k: nat)
    requires j <= |trace| && IsApproved(StandingOf(trace[..j], id))
    ensures k < j && Approves(trace[k], id) && forall m :: k < m < j ==> !Executes(trace[m], id)
    decreases j
  {
    assert j > 0 && trace[..j][..j - 1] == trace[..j - 1];
    if Approves(trace[j - 1], id) {
      k := j - 1;
    } else {
      k := ApprovedBefore(trace, j - 1, id);
    }
  }

  lemma {:induction false} ProposedBefore(trace: seq<Observation>, j: nat, id: string) returns (k: nat)
    requires TraceOk(trace) && j <= |trace| && StandingOf(trace[..j], id).Some?
    ensures k < j && Proposes(trace[k], id)
    decreases j
  {
    assert j > 0 && trace[..j][..j - 1] == trace[..j - 1];
    if Proposes(trace[j - 1], id) {
      k := j - 1;
    } else {
      k := ProposedBefore(trace, j - 1, id);
    }
  }

  /** Two destructive executions citing one approval always have an approve between them. */
  lemma ReapprovedBetweenExecutions(c: Deployment, workers: nat, steps: seq<Step>, i: nat, j: nat, id: string)
    returns (k: nat)
    requires i < j < |Run(c, Init(workers), steps).trace|
    requires Executes(Run(c, Init(workers), steps).trace[i], id) && Executes(Run(c, Init(workers), steps).trace[j], id)
    ensures i < k < j && Approves(Run(c, Init(workers), steps).trace[k], id)
  {
    RunKeepsApprovals(c, Init(workers), steps);
    k := ApprovedSince(Run(c, Init(workers), steps).trace, i, j, id);
  }

  /** Before any destructive execution a dry run created the approval it cites and an admin then approved it. */
  lemma ProposedThenApproved(c: Deployment, workers: nat, steps: seq<Step>, j: nat, id: string) returns (p: nat, k: nat)
    requires j < |Run(c, Init(workers), steps).trace| && Executes(Run(c, Init(workers), steps).trace[j], id)
    ensures p < k < j
    ensures Proposes(Run(c, Init(workers), steps).trace[p], id) && Approves(Run(c, Init(workers), steps).trace[k], id)
  {
    var trace := Run(c, Init(workers), steps).trace;
    RunKeepsApprovals(c, Init(workers), steps);
    k := ApprovedBefore(trace, j, id);
    p := ProposedBefore(trace, k, id);
  }

  /** A destructive call that passes every gate but the status of the approval it cites. */
  predicate ExecutesOn(c: Deployment, req: Request, args: Dict, id: string)
  {
    && Admits(c, req, args) && c.registry[req.tool].classification == Destructive
    && c.approvalToken != "" && req.approvalToken == Some(c.approvalToken)
    && id != "" && Get(args, "approved_change_id") == Some(Str(id))
  }

  /**
   * An approval can be used exactly when the last thing that happened to it is an approve, however often it was used
   * before: then, and only then, a destructive call with the token executes on it, provided its handler returns.
   */
  lemma UsableIffApprovedLast(c: Deployment, workers: nat, steps: seq<Step>, req: Request, args: Dict, f: Fresh,
                              res: HandlerResult, id: string)
    requires ExecutesOn(c, req, args, id)
    ensures var w := Run(c, Init(workers), steps);
            Executes(Invoked(req, Route(c, w.t, req, f, res).response), id) <==>
            IsApproved(StandingOf(w.trace, id)) && res.Returned?
  {
    hide Run; hide StandingOf;
    ApprovalStatusIsHistory(c, workers, steps, id);
  }

  // ---------------------------------------------------------------- idempotent submission

  /** A client saw a submission under a key of its own accepted. */
  predicate Submits(o: Observation, key: string)
  {
    o.Invoked? && o.response.decision == Enqueued && o.req.key == Some(key) && key != ""
  }

  ghost predicate SubmissionInv(w: World)
  {
    forall i, key :: 0 <= i < |w.trace| && Submits(w.trace[i], key) ==>
      key in w.t.keys && w.trace[i].response.jobId == Some(w.t.keys[key].jobId)
  }

  /** An accepted submission is answered with the job that its key names from then on. */
  lemma AnswerIsTheKeysJob(c: Deployment, t: Db, req: Request, f: Fresh, res: HandlerResult, now: int)
    requires FreshIds(t, f)
    ensures var response, keys := Route(c, t, req, f, res).response, Invoke(c, t, req, f, res, now).keys;
            && (response.decision == Enqueued ==>
                  EffectiveKey(req, f) in keys && response.jobId == Some(keys[EffectiveKey(req, f)].jobId))
            && forall k :: k in t.keys ==> k in keys && keys[k] == t.keys[k]
  {
    InvokeTables(c, t, req, f, res, now);
    WhatEnqueues(c, t, req, f, res);
  }

  lemma CallKeepsSubmissions(c: Deployment, w: World, req: Request, f: Fresh, res: HandlerResult)
    requires SubmissionInv(w) && FreshIds(w.t, f)
    ensures SubmissionInv(AfterCall(c, w, req, f, res))
  {
    var v := AfterCall(c, w, req, f, res);
    AnswerIsTheKeysJob(c, w.t, req, f, res, w.clock);
    forall i, key | 0 <= i < |v.trace| && Submits(v.trace[i], key)
      ensures key in v.t.keys && v.trace[i].response.jobId == Some(v.t.keys[key].jobId)
    {
      if i < |w.trace| {
        assert v.trace[i] == w.trace[i];
      }
    }
  }

  lemma ConcludeKeepsSubmissions(c: Deployment, w: World, j: string)
    requires SubmissionInv(w) && OpenOk(c, w) && CanConclude(w, j)
    ensures SubmissionInv(AfterConclude(c, w, j))
  {
    ConcludeEnters(c, w, j);
    var v := AfterConclude(c, w, j);
    hide AfterConclude;
    forall i, key | 0 <= i < |v.trace| && Submits(v.trace[i], key)
      ensures key in v.t.keys && v.trace[i].response.jobId == Some(v.t.keys[key].jobId)
    {
      if i < |w.trace| {
        assert v.trace[i] == w.trace[i];
      }
    }
  }

  lemma StepKeepsSubmissions(c: Deployment, w: World, s: Step)
    requires SubmissionInv(w) && OpenOk(c, w)
    ensures SubmissionInv(Apply(c, w, s))
  {
    if s.Call? {
      if FreshIn(w, s.f) {
        CallKeepsSubmissions(c, w, s.req, s.f, s.res);
      }
    } else if s.Conclude? {
      if CanConclude(w, s.jobId) {
        ConcludeKeepsSubmissions(c, w, s.jobId);
      }
    } else {
      var v := Apply(c, w, s);
      StepKeepsRecords(c, w, s);
      forall i, key | 0 <= i < |v.trace| && Submits(v.trace[i], key)
        ensures key in v.t.keys && v.trace[i].response.jobId == Some(v.t.keys[key].jobId)
      {
        assert i < |w.trace| && v.trace[i] == w.trace[i];
      }
    }
  }

  lemma {:induction false} RunKeepsSubmissions(c: Deployment, w: World, steps: seq<Step>)
    requires SubmissionInv(w) && QueueInv(c, w) && OpenOk(c, w)
    ensures SubmissionInv(Run(c, w, steps))
    decreases |steps|
  {
    if steps != [] {
      StepKeepsSubmissions(c, w, steps[0]);
      StepKeepsQueue(c, w, steps[0]);
      StepKeepsOpen(c, w, steps[0]);
      RunKeepsSubmissions(c, Apply(c, w, steps[0]), steps[1..]);
    }
  }

  /** All accepted submissions under one client key are answered with one job id, whatever happens in between. */
  lemma SubmissionIsIdempotent(c: Deployment, workers: nat, steps: seq<Step>, i: nat, j: nat, key: string)
    requires i < |Run(c, Init(workers), steps).trace| && j < |Run(c, Init(workers), steps).trace|
    requires Submits(Run(c, Init(workers), steps).trace[i], key) && Submits(Run(c, Init(workers), steps).trace[j], key)
    ensures Run(c, Init(workers), steps).trace[i].response.jobId.Some?
    ensures Run(c, Init(workers), steps).trace[i].response.jobId == Run(c, Init(workers), steps).trace[j].response.jobId
  {
    QueueInvariant(c, workers, []);
    RunKeepsSubmissions(c, Init(workers), steps);
    var w := Run(c, Init(workers), steps);
    assert w.trace[i].response.jobId == Some(w.t.keys[key].jobId);
    assert w.trace[j].response.jobId == Some(w.t.keys[key].jobId);
  }

  // ---------------------------------------------------------------- provenance

  /** Schedules without messages from elsewhere; copies of the gateway's messages are allowed. */
  predicate NoForeign(steps: seq<Step>)
  {
    forall i :: 0 <= i < |steps| ==> !steps[i].Publish?
  }

  /** The observation answers the call that made the run, identified by its request id, with the run's outcome. */
  ghost predicate Ran(c: Deployment, o: Observation, run: HandlerRun)
  {
    && run.InGateway? && o.Invoked? && o.response.requestId == run.requestId && o.req.tool == run.tool
    && Admits(c, o.req, run.args) && !AsyncOnly(c.registry[run.tool])
    && AnswersRun(c, o.req, run.args, o.response, run.res)
  }

  predicate Answers(o: Observation, req: Request, j: string)
  {
    o.Invoked? && o.req == req && o.response.decision == Enqueued && o.response.jobId == Some(j)
  }

  /** The body is one that the gateway publishes for this request: its arguments are the validated ones. */
  predicate BodyOf(c: Deployment, req: Request, body: Body)
  {
    && req.tool == body.tool && Admits(c, req, body.arguments) && AsyncOnly(c.registry[body.tool])
    && body.jobId.Some? && body.key.Some? && body.key.value != ""
    && (req.key.Some? && req.key.value != "" ==> body.key == req.key)
  }

  /** The request was answered with the body's job under the body's trace id. */
  ghost predicate AnsweredAs(trace: seq<Observation>, req: Request, body: Body)
    requires body.jobId.Some?
  {
    exists i :: 0 <= i < |trace| && Answers(trace[i], req, body.jobId.value)
                && trace[i].response.traceId == body.traceId
  }

  /** The request's session is still open, with the body's job and trace id. */
  predicate OpenAs(open: map<string, Submission>, req: Request, body: Body)
    requires body.jobId.Some?
  {
    body.jobId.value in open && open[body.jobId.value].req == req && open[body.jobId.value].f.traceId == body.traceId
  }

  /** The request is a submission of this body: it was answered with the body's job, or its session is still open. */
  ghost predicate Submitted(c: Deployment, w: World, req: Request, body: Body)
  {
    BodyOf(c, req, body) && (AnsweredAs(w.trace, req, body) || OpenAs(w.open, req, body))
  }

  ghost predicate WasRun(c: Deployment, trace: seq<Observation>, run: HandlerRun)
  {
    exists i :: 0 <= i < |trace| && Ran(c, trace[i], run)
  }

  predicate ShowsResult(o: Observation)
  {
    o.Invoked? && (o.response.decision == Executed || o.response.decision == DryRun)
  }

  ghost predicate ComesFromRun(c: Deployment, runs: seq<HandlerRun>, o: Observation)
  {
    exists n :: 0 <= n < |runs| && Ran(c, o, runs[n])
  }

  ghost predicate GatewayRunsOk(c: Deployment, w: World)
  {
    && (forall i :: 0 <= i < |w.trace| && ShowsResult(w.trace[i]) ==> ComesFromRun(c, w.runs, w.trace[i]))
    && (forall n :: 0 <= n < |w.runs| && w.runs[n].InGateway? ==> WasRun(c, w.trace, w.runs[n]))
    && (forall m, n :: 0 <= m < n < |w.runs| && w.runs[m].InGateway? && w.runs[n].InGateway? ==>
          w.runs[m].requestId != w.runs[n].requestId)
  }

  ghost predicate BodyJustified(c: Deployment, w: World, body: Body)
  {
    exists req :: Submitted(c, w, req, body)
  }

  ghost predicate WorkerRunsOk(c: Deployment, w: World)
  {
    && (forall r :: 0 <= r < |w.t.rows| ==> BodyJustified(c, w, w.t.rows[r].body))
    && (forall n :: 0 <= n < |w.runs| && w.runs[n].InWorker? ==>
          && BodyJustified(c, w, w.runs[n].message.body)
          && w.runs[n].tool == w.runs[n].message.body.tool && w.runs[n].args == w.runs[n].message.body.arguments)
  }

  /** Request ids of answered calls are in the call table. */
  lemma AnsweredIsRecorded(c: Deployment, w: World, i: nat)
    requires TrailOk(c, w) && i < |w.trace| && w.trace[i].Invoked?
    ensures exists n :: 0 <= n < |w.t.calls| && w.t.calls[n].requestId == w.trace[i].response.requestId
  {
    PlaceAmongInvocations(w.trace, i);
    assert Tells(c, w.t.calls[|Invocations(w.trace[..i])|], w.trace[i]);
  }

  lemma RanStays(c: Deployment, trace: seq<Observation>, after: seq<Observation>, run: HandlerRun)
    requires WasRun(c, trace, run) && |trace| <= |after| && after[..|trace|] == trace
    ensures WasRun(c, after, run)
  {
    var i :| 0 <= i < |trace| && Ran(c, trace[i], run);
    assert after[i] == after[..|trace|][i];
  }

  lemma ComesFromRunStays(c: Deployment, runs: seq<HandlerRun>, after: seq<HandlerRun>, o: Observation)
    requires ComesFromRun(c, runs, o) && |runs| <= |after| && after[..|runs|] == runs
    ensures ComesFromRun(c, after, o)
  {
    hide Ran;
    var n :| 0 <= n < |runs| && Ran(c, o, runs[n]);
    assert after[n] == after[..|runs|][n];
  }

  /** The run of a new call carries a request id that no earlier run carries. */
  lemma RunIdIsNew(c: Deployment, w: World, f: Fresh, m: nat)
    requires GatewayRunsOk(c, w) && TrailOk(c, w) && FreshIn(w, f) && m < |w.runs| && w.runs[m].InGateway?
    ensures w.runs[m].requestId != f.requestId
  {
    var i :| 0 <= i < |w.trace| && Ran(c, w.trace[i], w.runs[m]);
    AnsweredIsRecorded(c, w, i);
  }

  lemma CallRan(c: Deployment, w: World, req: Request, f: Fresh, res: HandlerResult)
    ensures var v, r := AfterCall(c, w, req, f, res), Route(c, w.t, req, f, res);
            && v.trace == w.trace + [Invoked(req, r.response)]
            && (r.ran.None? ==> v.runs == w.runs)
            && (r.ran.Some? ==> v.runs == w.runs + [InGateway(f.requestId, req.tool, r.ran.value, res)]
                                && Ran(c, Invoked(req, r.response), v.runs[|w.runs|]))
            && (r.response.decision == Executed || r.response.decision == DryRun ==> r.ran.Some?)
  {
    ResponseNamesRequest(c, w.t, req, f, res);
    DecisionIsExact(c, w.t, req, f, res);
    if Route(c, w.t, req, f, res).ran.Some? {
      WhatRuns(c, w.t, req, f, res, Route(c, w.t, req, f, res).ran.value);
      AnswerIsOfTheRun(c, w.t, req, f, res);
    }
    hide Route; hide Invoke; hide AnswersRun;
  }

  lemma CallKeepsGatewayRuns(c: Deployment, w: World, req: Request, f: Fresh, res: HandlerResult)
    requires GatewayRunsOk(c, w) && TrailOk(c, w) && FreshIn(w, f)
    ensures GatewayRunsOk(c, AfterCall(c, w, req, f, res))
  {
    hide Route; hide AfterCall; hide TrailOk; hide Ran; hide FreshIn;
    var v := AfterCall(c, w, req, f, res);
    CallRan(c, w, req, f, res);
    forall n: nat | n < |v.runs| && v.runs[n].InGateway? ensures WasRun(c, v.trace, v.runs[n]) {
      if n < |w.runs| {
        assert v.runs[n] == w.runs[n];
        RanStays(c, w.trace, v.trace, v.runs[n]);
      } else {
        assert Ran(c, v.trace[|w.trace|], v.runs[n]);
      }
    }
    forall i: nat | i < |v.trace| && ShowsResult(v.trace[i]) ensures ComesFromRun(c, v.runs, v.trace[i]) {
      if i < |w.trace| {
        assert v.trace[i] == w.trace[i];
        ComesFromRunStays(c, w.runs, v.runs, w.trace[i]);
      } else {
        assert Ran(c, v.trace[i], v.runs[|w.runs|]);
      }
    }
    forall m: nat | m < |w.runs| && w.runs[m].InGateway? ensures w.runs[m].requestId != f.requestId {
      RunIdIsNew(c, w, f, m);
    }
  }

  lemma TraceGrows(c: Deployment, w: World, s: Step)
    ensures var v := Apply(c, w, s);
            && |w.trace| <= |v.trace| && v.trace[..|w.trace|] == w.trace
            && |w.runs| <= |v.runs| && v.runs[..|w.runs|] == w.runs
            && (!s.Call? ==> forall n :: |w.runs| <= n < |v.runs| ==> v.runs[n].InWorker?)
            && (!s.Work? ==> forall n :: |w.runs| <= n < |v.runs| ==> v.runs[n].InGateway?)
  {
    hide Commit; hide Route; hide Invoke;
  }

  lemma StepKeepsGatewayRuns(c: Deployment, w: World, s: Step)
    requires GatewayRunsOk(c, w) && TrailOk(c, w)
    ensures GatewayRunsOk(c, Apply(c, w, s))
  {
    TraceGrows(c, w, s);
    var v := Apply(c, w, s);
    if s.Call? {
      if FreshIn(w, s.f) {
        CallKeepsGatewayRuns(c, w, s.req, s.f, s.res);
      }
    } else {
      hide Apply; hide TrailOk;
      forall n: nat | n < |v.runs| && v.runs[n].InGateway?
        ensures n < |w.runs| && v.runs[n] == w.runs[n] && WasRun(c, v.trace, v.runs[n])
      {
        assert v.runs[n] == v.runs[..|w.runs|][n];
        RanStays(c, w.trace, v.trace, v.runs[n]);
      }
      NewObservations(c, w, s);
      forall i: nat | i < |v.trace| && ShowsResult(v.trace[i]) ensures ComesFromRun(c, v.runs, v.trace[i]) {
        assert i < |w.trace| && v.trace[i] == v.trace[..|w.trace|][i];
        ComesFromRunStays(c, w.runs, v.runs, w.trace[i]);
      }
    }
  }

  /** Only calls show results. */
  lemma NewObservations(c: Deployment, w: World, s: Step)
    requires !s.Call?
    ensures forall i :: |w.trace| <= i < |Apply(c, w, s).trace| ==> !ShowsResult(Apply(c, w, s).trace[i])
  {
  }

  /** A submission leaves the open ones only by being answered. */
  lemma OpenIsAnswered(c: Deployment, w: World, s: Step, j: string)
    requires OpenOk(c, w) && j in w.open && j !in Apply(c, w, s).open
    ensures var v := Apply(c, w, s);
            && |v.trace| == |w.trace| + 1 && Answers(v.trace[|w.trace|], w.open[j].req, j)
            && v.trace[|w.trace|].response.traceId == w.open[j].f.traceId
  {
    assert SubmissionOk(c, w.t, j, w.open[j]);
  }

  /** What justified a body still does. */
  lemma JustifiedLater(c: Deployment, w: World, s: Step, body: Body)
    requires OpenOk(c, w) && BodyJustified(c, w, body)
    ensures BodyJustified(c, Apply(c, w, s), body)
  {
    var v := Apply(c, w, s);
    var req :| Submitted(c, w, req, body);
    var j := body.jobId.value;
    TraceGrows(c, w, s);
    if AnsweredAs(w.trace, req, body) {
      hide Apply;
      var i :| 0 <= i < |w.trace| && Answers(w.trace[i], req, j) && w.trace[i].response.traceId == body.traceId;
      assert v.trace[i] == v.trace[..|w.trace|][i];
      assert Submitted(c, v, req, body);
    } else if j in v.open {
      OpenUnchanged(c, w, s, j);
      assert Submitted(c, v, req, body);
    } else {
      OpenIsAnswered(c, w, s, j);
      hide Apply;
      assert Submitted(c, v, req, body);
    }
  }

  /** A row that a step adds is the message of a submission, or a copy. */
  lemma NewRowJustified(c: Deployment, w: World, s: Step, r: nat)
    requires OpenOk(c, w) && QueueInv(c, w) && WorkerRunsOk(c, w) && !s.Publish?
    requires |w.t.rows| <= r < |Apply(c, w, s).t.rows|
    ensures BodyJustified(c, Apply(c, w, s), Apply(c, w, s).t.rows[r].body)
  {
    SameRowCount(c, w, s);
    if s.Call? {
      CallRowJustified(c, w, s.req, s.f, s.res, r);
    } else if s.Submit? {
      assert Submitted(c, Apply(c, w, s), s.req, Apply(c, w, s).t.rows[r].body);
    } else {
      assert BodyJustified(c, w, w.t.rows[s.handle].body);
      JustifiedLater(c, w, s, w.t.rows[s.handle].body);
    }
  }

  lemma CallRowJustified(c: Deployment, w: World, req: Request, f: Fresh, res: HandlerResult, r: nat)
    requires FreshIn(w, f) && |w.t.rows| <= r < |AfterCall(c, w, req, f, res).t.rows|
    ensures BodyJustified(c, AfterCall(c, w, req, f, res), AfterCall(c, w, req, f, res).t.rows[r].body)
  {
    InvokeTables(c, w.t, req, f, res, w.clock);
    var v := AfterCall(c, w, req, f, res);
    assert Route(c, w.t, req, f, res).change.Enqueue?;
    hide Route; hide Invoke;
    var sub := CallEnters(c, w, req, f, res);
    hide AfterCall;
    assert v.trace[|w.trace|] == Invoked(req, QueuedResponse(req, f, f.jobId));
    assert AnsweredAs(v.trace, req, v.t.rows[r].body);
    assert Submitted(c, v, req, v.t.rows[r].body);
  }

  lemma NewRunIsOfARow(c: Deployment, w: World, s: Step, n: nat)
    requires QueueInv(c, w) && |w.runs| <= n < |Apply(c, w, s).runs| && Apply(c, w, s).runs[n].InWorker?
    ensures var run := Apply(c, w, s).runs[n];
            && run.tool == run.message.body.tool && run.args == run.message.body.arguments
            && run.message.handle < |w.t.rows| && w.t.rows[run.message.handle].body == run.message.body
  {
    TraceGrows(c, w, s);
    hide Commit;
    var h := w.hands[s.worker];
    assert InHand(w, s.worker, h.pos) && HoldsRow(c, w.t.rows, h, h.pos);
  }

  lemma StepKeepsWorkerRuns(c: Deployment, w: World, s: Step)
    requires WorkerRunsOk(c, w) && QueueInv(c, w) && OpenOk(c, w) && !s.Publish?
    ensures WorkerRunsOk(c, Apply(c, w, s))
  {
    hide Apply; hide BodyJustified; hide QueueInv; hide OpenOk;
    var v := Apply(c, w, s);
    TraceGrows(c, w, s);
    BodiesStay(c, w, s);
    forall r: nat | r < |v.t.rows| ensures BodyJustified(c, v, v.t.rows[r].body) {
      if r < |w.t.rows| {
        JustifiedLater(c, w, s, w.t.rows[r].body);
      } else {
        NewRowJustified(c, w, s, r);
      }
    }
    forall n: nat | n < |v.runs| && v.runs[n].InWorker?
      ensures BodyJustified(c, v, v.runs[n].message.body)
      ensures v.runs[n].tool == v.runs[n].message.body.tool && v.runs[n].args == v.runs[n].message.body.arguments
    {
      if n < |w.runs| {
        assert v.runs[n] == v.runs[..|w.runs|][n];
        JustifiedLater(c, w, s, w.runs[n].message.body);
      } else {
        NewRunIsOfARow(c, w, s, n);
        JustifiedLater(c, w, s, v.runs[n].message.body);
      }
    }
  }

  lemma {:induction false} RunKeepsWorkerRuns(c: Deployment, w: World, steps: seq<Step>)
    requires WorkerRunsOk(c, w) && QueueInv(c, w) && OpenOk(c, w) && NoForeign(steps)
    ensures WorkerRunsOk(c, Run(c, w, steps))
    decreases |steps|
  {
    if steps != [] {
      StepKeepsWorkerRuns(c, w, steps[0]);
      StepKeepsQueue(c, w, steps[0]);
      StepKeepsOpen(c, w, steps[0]);
      RunKeepsWorkerRuns(c, Apply(c, w, steps[0]), steps[1..]);
    }
  }

  lemma {:induction false} RunKeepsGatewayRuns(c: Deployment, w: World, steps: seq<Step>)
    requires GatewayRunsOk(c, w) && TrailOk(c, w)
    ensures GatewayRunsOk(c, Run(c, w, steps))
    decreases |steps|
  {
    if steps != [] {
      StepKeepsGatewayRuns(c, w, steps[0]);
      StepKeepsTrail(c, w, steps[0]);
      RunKeepsGatewayRuns(c, Apply(c, w, steps[0]), steps[1..]);
    }
  }

  lemma {:induction false} PlaceAmongInvocations(trace: seq<Observation>, i: nat)
    requires i < |trace| && trace[i].Invoked?
    ensures |Invocations(trace[..i])| < |Invocations(trace)|
    ensures Invocations(trace)[|Invocations(trace[..i])|] == trace[i]
    decreases |trace|
  {
    var n := |trace| - 1;
    if i < n {
      assert trace[..n][..i] == trace[..i];
      PlaceAmongInvocations(trace[..n], i);
    }
  }

  lemma MoreInvocations(trace: seq<Observation>, i: nat, k: nat)
    requires i < k <= |trace| && trace[i].Invoked?
    ensures |Invocations(trace[..i])| < |Invocations(trace[..k])|
  {
    assert trace[..k][..i] == trace[..i];
    PlaceAmongInvocations(trace[..k], i);
  }

  /** Two answers carry different request ids. */
  lemma AnsweredOnce(c: Deployment, workers: nat, steps: seq<Step>, i: nat, k: nat)
    requires i < k < |Run(c, Init(workers), steps).trace|
    requires Run(c, Init(workers), steps).trace[i].Invoked? && Run(c, Init(workers), steps).trace[k].Invoked?
    ensures var trace := Run(c, Init(workers), steps).trace;
            trace[i].response.requestId != trace[k].response.requestId
  {
    var trace := Run(c, Init(workers), steps).trace;
    PlaceAmongInvocations(trace, i);
    PlaceAmongInvocations(trace, k);
    MoreInvocations(trace, i, k);
    AnswersHaveDistinctIds(c, workers, steps, |Invocations(trace[..i])|, |Invocations(trace[..k])|);
  }

  /** The caller's role is known and listed, the tool is enabled, and `args` are the validated arguments. */
  predicate ServedTo(spec: ToolSpec, c: Deployment, req: Request, args: Dict)
  {
    && req.principal.role in c.knownRoles && req.principal.role in spec.requiredRoles && spec.enabled
    && spec.validate(req.arguments) == Ok(args)
  }

  /**
   * For any registry, every handler run in the gateway is the run of one answered call, and of no other run's call:
   * it has that call's request id, which no other run and no other answer has; the role is known and listed, the tool
   * enabled and not plain async, the arguments are the validated ones, and the answer is the run's redacted outcome.
   */
  lemma GatewayProvenance(c: Deployment, workers: nat, steps: seq<Step>, n: nat) returns (i: nat)
    requires n < |Run(c, Init(workers), steps).runs| && Run(c, Init(workers), steps).runs[n].InGateway?
    ensures var w := Run(c, Init(workers), steps);
            && i < |w.trace| && w.trace[i].Invoked? && w.trace[i].response.requestId == w.runs[n].requestId
            && w.trace[i].req.tool == w.runs[n].tool && w.runs[n].tool in c.registry
            && ServedTo(c.registry[w.runs[n].tool], c, w.trace[i].req, w.runs[n].args)
            && !AsyncOnly(c.registry[w.runs[n].tool])
            && AnswersRun(c, w.trace[i].req, w.runs[n].args, w.trace[i].response, w.runs[n].res)
            && (forall m :: 0 <= m < |w.runs| && m != n && w.runs[m].InGateway? ==>
                  w.runs[m].requestId != w.runs[n].requestId)
            && (forall k :: 0 <= k < |w.trace| && k != i && w.trace[k].Invoked? ==>
                  w.trace[k].response.requestId != w.runs[n].requestId)
  {
    var w := Run(c, Init(workers), steps);
    RunKeepsGatewayRuns(c, Init(workers), steps);
    i :| 0 <= i < |w.trace| && Ran(c, w.trace[i], w.runs[n]);
    forall k: nat | k < |w.trace| && k != i && w.trace[k].Invoked?
      ensures w.trace[k].response.requestId != w.trace[i].response.requestId
    {
      if i < k {
        AnsweredOnce(c, workers, steps, i, k);
      } else {
        AnsweredOnce(c, workers, steps, k, i);
      }
    }
  }

  /** Conversely, no result is shown to a client but that of a run of its own call, redacted for this client. */
  lemma ResultsComeFromRuns(c: Deployment, workers: nat, steps: seq<Step>, i: nat) returns (n: nat)
    requires i < |Run(c, Init(workers), steps).trace| && ShowsResult(Run(c, Init(workers), steps).trace[i])
    ensures var w := Run(c, Init(workers), steps);
            var req, response := w.trace[i].req, w.trace[i].response;
            && n < |w.runs| && w.runs[n].InGateway? && w.runs[n].requestId == response.requestId
            && w.runs[n].tool == req.tool && req.tool in c.registry
            && c.registry[req.tool].validate(req.arguments) == Ok(w.runs[n].args)
            && w.runs[n].res.Returned? && AnswersRun(c, req, w.runs[n].args, response, w.runs[n].res)
  {
    hide Shows;
    var w := Run(c, Init(workers), steps);
    RunKeepsGatewayRuns(c, Init(workers), steps);
    assert ComesFromRun(c, w.runs, w.trace[i]);
    n :| 0 <= n < |w.runs| && Ran(c, w.trace[i], w.runs[n]);
  }

  /**
   * Without foreign messages every handler run in a worker, copies included, is a run of a submission: of a request
   * that was admitted with these validated arguments for a plain async tool, and that was answered with the run's job
   * or whose session is still open.
   */
  lemma WorkerProvenance(c: Deployment, workers: nat, steps: seq<Step>, n: nat) returns (req: Request)
    requires NoForeign(steps) && n < |Run(c, Init(workers), steps).runs|
    requires Run(c, Init(workers), steps).runs[n].InWorker?
    ensures var w := Run(c, Init(workers), steps);
            var run := w.runs[n];
            && req.tool == run.tool && run.tool in c.registry && ServedTo(c.registry[run.tool], c, req, run.args)
            && AsyncOnly(c.registry[run.tool])
            && Submitted(c, w, req, run.message.body)
  {
    QueueInvariant(c, workers, []);
    RunKeepsWorkerRuns(c, Init(workers), steps);
    var w := Run(c, Init(workers), steps);
    assert BodyJustified(c, w, w.runs[n].message.body);
    req :| Submitted(c, w, req, w.runs[n].message.body);
  }

  // ---------------------------------------------------------------- the gate, over histories

  /** The run's own call shows the token and cites an approval that stood approved when it was made. */
  ghost predicate GatePassed(c: Deployment, trace: seq<Observation>, run: HandlerRun)
    requires run.InGateway?
  {
    exists i, id :: 0 <= i < |trace| && trace[i].Invoked? && trace[i].response.requestId == run.requestId
                    && trace[i].req.tool == run.tool
                    && ExecutesOn(c, trace[i].req, run.args, id) && IsApproved(StandingOf(trace[..i], id))
  }

  predicate RunsDestructive(c: Deployment, run: HandlerRun)
  {
    run.InGateway? && run.tool in c.registry && c.registry[run.tool].classification == Destructive
  }

  ghost predicate GateInv(c: Deployment, w: World)
  {
    forall n :: 0 <= n < |w.runs| && RunsDestructive(c, w.runs[n]) ==> GatePassed(c, w.trace, w.runs[n])
  }

  lemma GateStaysPassed(c: Deployment, trace: seq<Observation>, o: Observation, run: HandlerRun)
    requires run.InGateway? && GatePassed(c, trace, run)
    ensures GatePassed(c, trace + [o], run)
  {
    var i, id :| 0 <= i < |trace| && trace[i].Invoked? && trace[i].response.requestId == run.requestId
                 && trace[i].req.tool == run.tool
                 && ExecutesOn(c, trace[i].req, run.args, id) && IsApproved(StandingOf(trace[..i], id));
    assert (trace + [o])[i] == trace[i] && (trace + [o])[..i] == trace[..i];
  }

  /** The gateway runs a destructive tool only behind the gate. */
  lemma CallPassesGate(c: Deployment, w: World, req: Request, f: Fresh, res: HandlerResult)
    requires ApprovalInv(w) && Route(c, w.t, req, f, res).ran.Some?
    requires req.tool in c.registry && c.registry[req.tool].classification == Destructive
    ensures var r := Route(c, w.t, req, f, res);
            GatePassed(c, w.trace + [Invoked(req, r.response)], InGateway(f.requestId, req.tool, r.ran.value, res))
  {
    var r := Route(c, w.t, req, f, res);
    WhatRuns(c, w.t, req, f, res, r.ran.value);
    ResponseNamesRequest(c, w.t, req, f, res);
    hide Route;
    var id := CitedApproval(r.ran.value, w.t.approvals).value;
    var after := w.trace + [Invoked(req, r.response)];
    assert ExecutesOn(c, req, r.ran.value, id);
    assert after[|w.trace|] == Invoked(req, r.response) && after[..|w.trace|] == w.trace;
  }

  lemma StepKeepsGate(c: Deployment, w: World, s: Step)
    requires ApprovalInv(w) && GateInv(c, w)
    ensures GateInv(c, Apply(c, w, s))
  {
    hide Commit; hide Received; hide Invoke; hide Route; hide ApprovalInv; hide GatePassed;
    var v := Apply(c, w, s);
    forall n | 0 <= n < |v.runs| && RunsDestructive(c, v.runs[n]) ensures GatePassed(c, v.trace, v.runs[n]) {
      if n < |w.runs| {
        assert v.runs[n] == w.runs[n];
        if v.trace != w.trace {
          GateStaysPassed(c, w.trace, v.trace[|w.trace|], w.runs[n]);
        }
      } else {
        CallPassesGate(c, w, s.req, s.f, s.res);
      }
    }
  }

  lemma {:induction false} RunKeepsGate(c: Deployment, w: World, steps: seq<Step>)
    requires ApprovalInv(w) && GateInv(c, w)
    ensures GateInv(c, Run(c, w, steps)) && ApprovalInv(Run(c, w, steps))
    decreases |steps|
  {
    if steps != [] {
      StepKeepsApprovals(c, w, steps[0]);
      StepKeepsGate(c, w, steps[0]);
      RunKeepsGate(c, Apply(c, w, steps[0]), steps[1..]);
    }
  }

  /**
   * Every run of a destructive tool, whether it returned or raised, is the run of one call, and of no other run's: that
   * call shows the configured token and cites an approval which an admin had granted before and no execution had used
   * since.
   */
  lemma DestructiveRunsWereApproved(c: Deployment, workers: nat, steps: seq<Step>, n: nat)
    returns (i: nat, k: nat, id: string)
    requires n < |Run(c, Init(workers), steps).runs| && RunsDestructive(c, Run(c, Init(workers), steps).runs[n])
    ensures var trace, run := Run(c, Init(workers), steps).trace, Run(c, Init(workers), steps).runs[n];
            && k < i < |trace| && trace[i].Invoked? && trace[i].req.tool == run.tool
            && trace[i].response.requestId == run.requestId
            && (forall m :: 0 <= m < |Run(c, Init(workers), steps).runs| && m != n
                            && Run(c, Init(workers), steps).runs[m].InGateway? ==>
                  Run(c, Init(workers), steps).runs[m].requestId != run.requestId)
            && ExecutesOn(c, trace[i].req, run.args, id)
            && Approves(trace[k], id) && forall m :: k < m < i ==> !Executes(trace[m], id)
  {
    RunKeepsGate(c, Init(workers), steps);
    var w := Run(c, Init(workers), steps);
    assert GatePassed(c, w.trace, w.runs[n]);
    var own := GatewayProvenance(c, workers, steps, n);
    i, id :| i < |w.trace| && w.trace[i].Invoked? && w.trace[i].response.requestId == w.runs[n].requestId
             && w.trace[i].req.tool == w.runs[n].tool
             && ExecutesOn(c, w.trace[i].req, w.runs[n].args, id) && IsApproved(StandingOf(w.trace[..i], id));
    k := ApprovedBefore(w.trace, i, id);
  }

  // ---------------------------------------------------------------- where jobs come from

  /** The observation is the accepted submission that created the job, in its own words. */
  ghost predicate Creates(c: Deployment, o: Observation, j: string, job: Job)
  {
    && o.Invoked? && o.response.decision == Enqueued && o.response.jobId == Some(j)
    && job.tool == o.req.tool && job.userId == o.req.principal.subject && job.agentId == o.req.principal.agentId
    && job.role == o.req.principal.role && job.traceId == o.response.traceId && job.requestId == o.response.requestId
    && (o.req.key.Some? && o.req.key.value != "" ==> job.key == o.req.key.value)
    && exists args :: Admits(c, o.req, args) && job.payload == [Field("arguments", Obj(args))]
  }

  ghost predicate JobJustified(c: Deployment, trace: seq<Observation>, j: string, job: Job)
  {
    exists i :: 0 <= i < |trace| && Creates(c, trace[i], j, job)
  }

  ghost predicate JobsJustified(c: Deployment, w: World)
  {
    forall j :: j in w.t.jobs ==> JobJustified(c, w.trace, j, w.t.jobs[j])
  }

  lemma JobStaysJustified(c: Deployment, trace: seq<Observation>, after: seq<Observation>, j: string, job: Job,
                          later: Job)
    requires JobJustified(c, trace, j, job) && Pristine(later) == Pristine(job)
    requires |trace| <= |after| && after[..|trace|] == trace
    ensures JobJustified(c, after, j, later)
  {
    var i :| 0 <= i < |trace| && Creates(c, trace[i], j, job);
    assert after[i] == after[..|trace|][i];
    assert job == Pristine(job).(status := job.status, attempts := job.attempts, result := job.result,
                                 errorCode := job.errorCode, errorDetail := job.errorDetail);
    assert later == Pristine(job).(status := later.status, attempts := later.attempts, result := later.result,
                                   errorCode := later.errorCode, errorDetail := later.errorDetail);
    assert Creates(c, after[i], j, later);
  }

  lemma SubmissionCreates(c: Deployment, w: World, s: Step) returns (j: string)
    requires OpenOk(c, w) && Enqueues(c, w, s)
    ensures var v := Apply(c, w, s);
            && v.t.jobs.Keys == w.t.jobs.Keys + {j}
            && (forall k :: k in w.t.jobs && k != j ==> v.t.jobs[k] == w.t.jobs[k])
            && j !in w.t.jobs && |v.trace| == |w.trace| + 1 && Creates(c, v.trace[|w.trace|], j, v.t.jobs[j])
  {
    hide Apply; hide Enqueues; hide OpenOk;
    var sub := StepEnters(c, w, s);
    j := sub.f.jobId;
    assert Apply(c, w, s).trace[|w.trace|] == Invoked(sub.req, QueuedResponse(sub.req, sub.f, j));
  }

  lemma StepKeepsJobs(c: Deployment, w: World, s: Step)
    requires JobsJustified(c, w) && OpenOk(c, w)
    ensures JobsJustified(c, Apply(c, w, s))
  {
    var v := Apply(c, w, s);
    TraceGrows(c, w, s);
    if Enqueues(c, w, s) {
      var j := SubmissionCreates(c, w, s);
      hide Apply;
      forall k | k in v.t.jobs ensures JobJustified(c, v.trace, k, v.t.jobs[k]) {
        if k != j {
          JobStaysJustified(c, w.trace, v.trace, k, w.t.jobs[k], v.t.jobs[k]);
        }
      }
    } else {
      StepKeepsRecords(c, w, s);
      hide Apply;
      forall k | k in v.t.jobs ensures JobJustified(c, v.trace, k, v.t.jobs[k]) {
        JobStaysJustified(c, w.trace, v.trace, k, w.t.jobs[k], v.t.jobs[k]);
      }
    }
  }

  lemma {:induction false} RunKeepsJobs(c: Deployment, w: World, steps: seq<Step>)
    requires JobsJustified(c, w) && QueueInv(c, w) && OpenOk(c, w)
    ensures JobsJustified(c, Run(c, w, steps))
    decreases |steps|
  {
    if steps != [] {
      StepKeepsJobs(c, w, steps[0]);
      StepKeepsQueue(c, w, steps[0]);
      StepKeepsOpen(c, w, steps[0]);
      RunKeepsJobs(c, Apply(c, w, steps[0]), steps[1..]);
    }
  }

  // ---------------------------------------------------------------- where keys come from

  /** The observation is the accepted submission that reserved the key. */
  ghost predicate Reserves(c: Deployment, o: Observation, k: string, row: KeyRow)
  {
    && o.Invoked? && o.response.decision == Enqueued && o.response.jobId == Some(row.jobId)
    && row.tool == o.req.tool && row.inputHash == c.hash(o.req.tool, o.req.arguments)
    && (o.req.key.Some? && o.req.key.value != "" ==> k == o.req.key.value)
  }

  ghost predicate KeyJustified(c: Deployment, trace: seq<Observation>, k: string, row: KeyRow)
  {
    exists i :: 0 <= i < |trace| && Reserves(c, trace[i], k, row)
  }

  ghost predicate KeysJustified(c: Deployment, w: World)
  {
    forall k :: k in w.t.keys ==> KeyJustified(c, w.trace, k, w.t.keys[k])
  }

  /** Steps that add no key leave tool, job and hash of the keys alone. */
  lemma StepKeepsKeyData(c: Deployment, w: World, s: Step)
    requires !Enqueues(c, w, s)
    ensures SameKeyData(w.t.keys, Apply(c, w, s).t.keys)
  {
    hide Route; hide Invoke; hide Commit; hide FreshIn;
    if s.Call? && FreshIn(w, s.f) {
      InvokeTables(c, w.t, s.req, s.f, s.res, w.clock);
    } else if s.Work? && s.worker < |w.hands| && Busy(w.hands[s.worker]) {
      var h := w.hands[s.worker];
      CommitKeepsKeyData(c, w.t, h.batch[h.pos], h.phase, w.clock);
    }
  }

  predicate SameKeyData(a: map<string, KeyRow>, b: map<string, KeyRow>)
  {
    b.Keys == a.Keys && forall k :: k in a ==> b[k] == a[k].(completed := b[k].completed, result := b[k].result)
  }

  lemma CommitKeepsKeyData(c: Deployment, t: Db, msg: Message, phase: Phase, now: int)
    ensures SameKeyData(t.keys, Commit(c, t, msg, phase, now).db.keys)
  {
    hide SetJob;
  }

  lemma KeyStaysJustified(c: Deployment, trace: seq<Observation>, after: seq<Observation>, k: string, row: KeyRow,
                          later: KeyRow)
    requires KeyJustified(c, trace, k, row) && |trace| <= |after| && after[..|trace|] == trace
    requires later == row.(completed := later.completed, result := later.result)
    ensures KeyJustified(c, after, k, later)
  {
    var i :| 0 <= i < |trace| && Reserves(c, trace[i], k, row);
    assert after[i] == after[..|trace|][i];
    assert Reserves(c, after[i], k, later);
  }

  lemma StepKeepsKeys(c: Deployment, w: World, s: Step)
    requires KeysJustified(c, w) && OpenOk(c, w)
    ensures KeysJustified(c, Apply(c, w, s))
  {
    var v := Apply(c, w, s);
    TraceGrows(c, w, s);
    hide Apply; hide Enqueues; hide OpenOk;
    if Enqueues(c, w, s) {
      var sub := StepEnters(c, w, s);
      var key := EffectiveKey(sub.req, sub.f);
      assert Reserves(c, v.trace[|w.trace|], key, v.t.keys[key]);
      forall k | k in v.t.keys ensures KeyJustified(c, v.trace, k, v.t.keys[k]) {
        if k != key {
          KeyStaysJustified(c, w.trace, v.trace, k, w.t.keys[k], v.t.keys[k]);
        }
      }
    } else {
      StepKeepsKeyData(c, w, s);
      forall k | k in v.t.keys ensures KeyJustified(c, v.trace, k, v.t.keys[k]) {
        KeyStaysJustified(c, w.trace, v.trace, k, w.t.keys[k], v.t.keys[k]);
      }
    }
  }

  lemma {:induction false} RunKeepsKeys(c: Deployment, w: World, steps: seq<Step>)
    requires KeysJustified(c, w) && QueueInv(c, w) && OpenOk(c, w)
    ensures KeysJustified(c, Run(c, w, steps))
    decreases |steps|
  {
    if steps != [] {
      StepKeepsKeys(c, w, steps[0]);
      StepKeepsQueue(c, w, steps[0]);
      StepKeepsOpen(c, w, steps[0]);
      RunKeepsKeys(c, Apply(c, w, steps[0]), steps[1..]);
    }
  }

  /**
   * Every key, at any time of any run, is the key of an accepted submission that was answered with its job, and carries
   * that submission's tool and the hash of its raw arguments; later submissions under the key never rewrite those.
   */
  lemma KeyProvenance(c: Deployment, workers: nat, steps: seq<Step>, k: string) returns (i: nat)
    requires k in Run(c, Init(workers), steps).t.keys
    ensures i < |Run(c, Init(workers), steps).trace|
    ensures Reserves(c, Run(c, Init(workers), steps).trace[i], k, Run(c, Init(workers), steps).t.keys[k])
  {
    QueueInvariant(c, workers, []);
    RunKeepsKeys(c, Init(workers), steps);
    var w := Run(c, Init(workers), steps);
    assert KeyJustified(c, w.trace, k, w.t.keys[k]);
    i :| i < |w.trace| && Reserves(c, w.trace[i], k, w.t.keys[k]);
  }

  /**
   * Every job, at any time of any run, carries the tool, the caller, the validated arguments and the client key of
   * an accepted submission that was answered with it; workers, crashes and foreign messages never rewrite those.
   */
  lemma JobProvenance(c: Deployment, workers: nat, steps: seq<Step>, j: string) returns (i: nat)
    requires j in Run(c, Init(workers), steps).t.jobs
    ensures i < |Run(c, Init(workers), steps).trace|
    ensures Creates(c, Run(c, Init(workers), steps).trace[i], j, Run(c, Init(workers), steps).t.jobs[j])
  {
    QueueInvariant(c, workers, []);
    RunKeepsJobs(c, Init(workers), steps);
    var w := Run(c, Init(workers), steps);
    i :| i < |w.trace| && Creates(c, w.trace[i], j, w.t.jobs[j]);
  }
}
