/** What an approval is for: the proposal of the dry run that created it, unchanged for ever. */
module Proposals {
  import opened Values
  import opened Tables
  import opened Catalog
  import opened Gateway
  import opened Worker
  import opened Protocol
  import opened Accounting
  import opened AuditTrail
  import opened GatewayRuns

  /** Resource and change are those that the handler of the proposing call returned. */
  ghost predicate Proposed(c: Deployment, w: World, id: string)
    requires id in w.t.approvals
  {
    exists i, n :: 0 <= i < |w.trace| && 0 <= n < |w.runs| && Proposes(w.trace[i], id) && Ran(c, w.trace[i], w.runs[n])
                   && OnTerms(w.t.approvals[id], w.trace[i], w.runs[n])
  }

  predicate OnTerms(a: Approval, o: Observation, run: HandlerRun)
  {
    && run.InGateway? && run.res.Returned? && o.Invoked?
    && a.tool == o.req.tool && a.resourceId == run.res.resourceId && a.proposedChange == run.res.proposedChange
    && a.agent == o.req.principal.agentId && a.role == o.req.principal.role
  }

  ghost predicate TermsOk(c: Deployment, w: World)
  {
    forall id :: id in w.t.approvals ==> Proposed(c, w, id)
  }

  /** What an approval is for; status and decider are left out. */
  function Terms(a: Approval): Approval
  {
    a.(status := Pending, approvedBy := None)
  }

  /** No step removes an approval or changes what it is for. */
  lemma StepKeepsTerms(c: Deployment, w: World, s: Step, id: string)
    requires id in w.t.approvals
    ensures id in Apply(c, w, s).t.approvals && Terms(Apply(c, w, s).t.approvals[id]) == Terms(w.t.approvals[id])
  {
    match s
    case Call(req, f, res) =>
      if FreshIn(w, f) {
        WhatMovesApprovals(c, w.t, req, f, res, w.clock);
        hide Route; hide Invoke;
      }
    case Work(i) =>
      if i < |w.hands| && Busy(w.hands[i]) {
        CommitAccounts(c, w.t, w.hands[i].batch[w.hands[i].pos], w.hands[i].phase, w.clock);
        hide Commit;
      }
    case _ =>
  }

  /** What an admin approves is what was proposed: the terms of an approval never change. */
  lemma {:induction false} TermsAreFixed(c: Deployment, w: World, steps: seq<Step>, id: string)
    requires id in w.t.approvals
    ensures id in Run(c, w, steps).t.approvals
    ensures var was, now := w.t.approvals[id], Run(c, w, steps).t.approvals[id];
            && now.tool == was.tool && now.resourceId == was.resourceId && now.proposedChange == was.proposedChange
            && now.agent == was.agent && now.role == was.role
    decreases |steps|
  {
    if steps != [] {
      StepKeepsTerms(c, w, steps[0], id);
      TermsAreFixed(c, Apply(c, w, steps[0]), steps[1..], id);
    }
  }

  lemma NewApprovalIsProposed(c: Deployment, w: World, req: Request, f: Fresh, res: HandlerResult)
    requires Route(c, w.t, req, f, res).change.NewApproval?
    ensures var v, r := AfterCall(c, w, req, f, res), Route(c, w.t, req, f, res);
            && r.ran.Some? && Proposes(v.trace[|w.trace|], f.approvalId)
            && v.t.approvals.Keys == w.t.approvals.Keys + {f.approvalId}
            && OnTerms(v.t.approvals[f.approvalId], v.trace[|w.trace|], v.runs[|w.runs|])
  {
    WhatMovesApprovals(c, w.t, req, f, res, w.clock);
    RouteAccounts(c, w.t, req, f, res);
    hide Route; hide Invoke;
  }

  /** The handler runs and the observations so far stay where they are. */
  lemma ProposedStays(c: Deployment, w: World, s: Step, id: string)
    requires id in w.t.approvals && Proposed(c, w, id)
    ensures id in Apply(c, w, s).t.approvals && Proposed(c, Apply(c, w, s), id)
  {
    StepKeepsTerms(c, w, s, id);
    TraceGrows(c, w, s);
    hide Apply; hide Ran;
    var v := Apply(c, w, s);
    var i, n :| 0 <= i < |w.trace| && 0 <= n < |w.runs| && Proposes(w.trace[i], id) && Ran(c, w.trace[i], w.runs[n])
                && OnTerms(w.t.approvals[id], w.trace[i], w.runs[n]);
    assert v.trace[i] == v.trace[..|w.trace|][i] && v.runs[n] == v.runs[..|w.runs|][n];
    assert OnTerms(v.t.approvals[id], v.trace[i], v.runs[n]);
  }

  /** Only a call that proposes brings a new approval. */
  lemma NewApprovals(c: Deployment, w: World, s: Step, id: string)
    requires id in Apply(c, w, s).t.approvals && id !in w.t.approvals
    ensures s.Call? && FreshIn(w, s.f) && Route(c, w.t, s.req, s.f, s.res).change.NewApproval? && id == s.f.approvalId
  {
    match s
    case Call(req, f, res) =>
      if FreshIn(w, f) {
        WhatMovesApprovals(c, w.t, req, f, res, w.clock);
        RouteAccounts(c, w.t, req, f, res);
        hide Route; hide Invoke;
      }
    case Work(i) =>
      if i < |w.hands| && Busy(w.hands[i]) {
        CommitAccounts(c, w.t, w.hands[i].batch[w.hands[i].pos], w.hands[i].phase, w.clock);
        hide Commit;
      }
    case _ =>
  }

  lemma StepKeepsProposals(c: Deployment, w: World, s: Step)
    requires TermsOk(c, w)
    ensures TermsOk(c, Apply(c, w, s))
  {
    hide Ran; hide OnTerms; hide Proposes;
    var v := Apply(c, w, s);
    forall id | id in v.t.approvals ensures Proposed(c, v, id) {
      if id in w.t.approvals {
        ProposedStays(c, w, s, id);
      } else {
        NewApprovals(c, w, s, id);
        NewApprovalIsProposed(c, w, s.req, s.f, s.res);
        CallRan(c, w, s.req, s.f, s.res);
        hide Route; hide Invoke;
        assert Ran(c, v.trace[|w.trace|], v.runs[|w.runs|]);
      }
    }
  }

  lemma {:induction false} RunKeepsProposals(c: Deployment, w: World, steps: seq<Step>)
    requires TermsOk(c, w) && ProposedOnce(w)
    ensures TermsOk(c, Run(c, w, steps)) && ProposedOnce(Run(c, w, steps))
    decreases |steps|
  {
    if steps != [] {
      StepKeepsProposals(c, w, steps[0]);
      StepKeepsProposedOnce(c, w, steps[0]);
      RunKeepsProposals(c, Apply(c, w, steps[0]), steps[1..]);
    }
  }

  /** An id that was proposed is in the table, and was proposed once. */
  ghost predicate ProposedOnce(w: World)
  {
    && (forall i, id :: 0 <= i < |w.trace| && Proposes(w.trace[i], id) ==> id in w.t.approvals)
    && (forall i, j, id :: 0 <= i < j < |w.trace| && Proposes(w.trace[i], id) ==> !Proposes(w.trace[j], id))
  }

  /** A new observation proposes nothing but a new approval. */
  lemma NewProposal(c: Deployment, w: World, s: Step, i: nat, id: string)
    requires |w.trace| <= i < |Apply(c, w, s).trace| && Proposes(Apply(c, w, s).trace[i], id)
    ensures i == |w.trace| && |Apply(c, w, s).trace| == |w.trace| + 1
    ensures id !in w.t.approvals && id in Apply(c, w, s).t.approvals
  {
    if s.Call? {
      RouteAccounts(c, w.t, s.req, s.f, s.res);
      WhatMovesApprovals(c, w.t, s.req, s.f, s.res, w.clock);
      hide Route; hide Invoke;
    }
  }

  lemma StepKeepsProposedOnce(c: Deployment, w: World, s: Step)
    requires ProposedOnce(w)
    ensures ProposedOnce(Apply(c, w, s))
  {
    hide Apply; hide Proposes;
    TraceGrows(c, w, s);
    var v := Apply(c, w, s);
    assert forall i :: 0 <= i < |w.trace| ==> v.trace[i] == v.trace[..|w.trace|][i];
    forall i: nat, id | i < |v.trace| && Proposes(v.trace[i], id) ensures id in v.t.approvals {
      if i < |w.trace| {
        assert Proposes(w.trace[i], id);
        StepKeepsTerms(c, w, s, id);
      } else {
        NewProposal(c, w, s, i, id);
      }
    }
    forall i: nat, j: nat, id | i < j < |v.trace| && Proposes(v.trace[i], id) && Proposes(v.trace[j], id)
      ensures false
    {
      if i < |w.trace| {
        assert Proposes(w.trace[i], id);
      } else {
        NewProposal(c, w, s, i, id);
      }
      if j >= |w.trace| {
        NewProposal(c, w, s, j, id);
      }
    }
  }

  /**
   * At any time of any run the approval with an id carries the resource and the proposed change that the handler of
   * the one proposing call returned, and names that call's tool and caller, whatever happened to its status since.
   */
  lemma ApprovalCarriesTheProposal(c: Deployment, workers: nat, steps: seq<Step>, id: string) returns (i: nat, n: nat)
    requires id in Run(c, Init(workers), steps).t.approvals
    ensures var w := Run(c, Init(workers), steps);
            && i < |w.trace| && n < |w.runs| && Proposes(w.trace[i], id)
            && w.runs[n].InGateway? && w.runs[n].requestId == w.trace[i].response.requestId && w.runs[n].res.Returned?
            && (forall k :: 0 <= k < |w.trace| && k != i ==> !Proposes(w.trace[k], id))
            && var a, res, req := w.t.approvals[id], w.runs[n].res, w.trace[i].req;
               && a.tool == req.tool && a.resourceId == res.resourceId && a.proposedChange == res.proposedChange
               && a.agent == req.principal.agentId && a.role == req.principal.role
  {
    var w := Run(c, Init(workers), steps);
    RunKeepsProposals(c, Init(workers), steps);
    assert Proposed(c, w, id);
    i, n :| 0 <= i < |w.trace| && 0 <= n < |w.runs| && Proposes(w.trace[i], id) && Ran(c, w.trace[i], w.runs[n])
            && OnTerms(w.t.approvals[id], w.trace[i], w.runs[n]);
  }

  // ---------------------------------------------------------------- grants in the audit trail

  /** Every grant was reported under the tool of the approval. */
  ghost predicate GrantsNameTools(w: World)
  {
    |GatewayEvents(w.t.events)| == |w.trace|
    && forall i :: 0 <= i < |w.trace| && w.trace[i].ApprovedBy? ==>
         && w.trace[i].approvalId in w.t.approvals
         && GatewayEvents(w.t.events)[i].tool == w.t.approvals[w.trace[i].approvalId].tool
  }

  /** A step that shows clients something writes one event of the gateway; no other step writes any. */
  lemma GatewayEventOfStep(c: Deployment, w: World, s: Step)
    ensures var v := Apply(c, w, s);
            && (v.trace == w.trace ==> GatewayEvents(v.t.events) == GatewayEvents(w.t.events))
            && (v.trace != w.trace ==> |v.t.events| == |w.t.events| + 1 && v.t.events[..|w.t.events|] == w.t.events
                                       && ByGateway(v.t.events[|w.t.events|]) && |v.trace| == |w.trace| + 1)
            && (v.trace != w.trace && s.Grant? ==>
                  && MayApprove(w.t, s.who, s.approvalId)
                  && v.t.events[|w.t.events|].tool == w.t.approvals[s.approvalId].tool)
            && (v.trace != w.trace && !s.Grant? ==> v.trace[|w.trace|].Invoked?)
  {
    hide GatewayEvents;
    if s.Call? {
      if FreshIn(w, s.f) {
        InvokeAppends(c, w.t, s.req, s.f, s.res, w.clock);
        hide Route; hide Invoke;
      }
    } else if s.Work? {
      if s.worker < |w.hands| && Busy(w.hands[s.worker]) {
        var h := w.hands[s.worker];
        CommitIsNotGateway(c, w.t, h.batch[h.pos], h.phase, w.clock);
        hide Commit;
      }
    } else {
      hide Route; hide Invoke; hide Commit;
    }
  }

  /** The gateway's events stay, and a grant's event is the one it writes. */
  lemma GatewayEventsGrow(c: Deployment, w: World, s: Step)
    requires |GatewayEvents(w.t.events)| == |w.trace|
    ensures var v := Apply(c, w, s);
            && |GatewayEvents(v.t.events)| == |v.trace| && |w.trace| <= |v.trace|
            && GatewayEvents(v.t.events)[..|w.trace|] == GatewayEvents(w.t.events)
            && (v.trace != w.trace && s.Grant? ==>
                  && MayApprove(w.t, s.who, s.approvalId)
                  && GatewayEvents(v.t.events)[|w.trace|].tool == w.t.approvals[s.approvalId].tool)
            && (!s.Grant? ==> forall i :: |w.trace| <= i < |v.trace| ==> v.trace[i].Invoked?)
  {
    var v := Apply(c, w, s);
    GatewayEventOfStep(c, w, s);
    hide Apply; hide GatewayEvents;
    if v.trace != w.trace {
      var e := v.t.events[|w.t.events|];
      assert v.t.events == w.t.events + [e];
      ObservedOne(w.trace, v.trace[|w.trace|], w.t.events, e);
    }
  }

  lemma StepKeepsGrantTools(c: Deployment, w: World, s: Step)
    requires GrantsNameTools(w)
    ensures GrantsNameTools(Apply(c, w, s))
  {
    hide GatewayEvents;
    GatewayEventsGrow(c, w, s);
    TraceGrows(c, w, s);
    var v := Apply(c, w, s);
    forall i | 0 <= i < |v.trace| && v.trace[i].ApprovedBy?
      ensures v.trace[i].approvalId in v.t.approvals
      ensures GatewayEvents(v.t.events)[i].tool == v.t.approvals[v.trace[i].approvalId].tool
    {
      if i < |w.trace| {
        assert v.trace[i] == v.trace[..|w.trace|][i];
        assert GatewayEvents(v.t.events)[i] == GatewayEvents(v.t.events)[..|w.trace|][i];
        StepKeepsTerms(c, w, s, v.trace[i].approvalId);
      } else {
        assert v.trace != w.trace && s.Grant?;
        StepKeepsTerms(c, w, s, s.approvalId);
      }
    }
  }

  lemma {:induction false} RunKeepsGrantTools(c: Deployment, w: World, steps: seq<Step>)
    requires GrantsNameTools(w)
    ensures GrantsNameTools(Run(c, w, steps))
    decreases |steps|
  {
    if steps != [] {
      StepKeepsGrantTools(c, w, steps[0]);
      RunKeepsGrantTools(c, Apply(c, w, steps[0]), steps[1..]);
    }
  }

  /** The event of a grant names the tool that the approval is for, over every run. */
  lemma GrantEventsNameTheTool(c: Deployment, workers: nat, steps: seq<Step>, i: nat)
    requires i < |Run(c, Init(workers), steps).trace| && Run(c, Init(workers), steps).trace[i].ApprovedBy?
    ensures var w := Run(c, Init(workers), steps);
            && |GatewayEvents(w.t.events)| == |w.trace| && w.trace[i].approvalId in w.t.approvals
            && GatewayEvents(w.t.events)[i].tool == w.t.approvals[w.trace[i].approvalId].tool
  {
    RunKeepsGrantTools(c, Init(workers), steps);
  }
}
