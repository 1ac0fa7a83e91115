/** Conservation of audit rows over every run. */
module Accounting {
  import opened Values
  import opened Tables
  import opened Catalog
  import opened LocalQueue
  import opened Gateway
  import opened Worker
  import opened Protocol

  function Delivered(rows: seq<Row>): nat
  {
    if rows == [] then 0 else Delivered(rows[..|rows| - 1]) + rows[|rows| - 1].deliveries
  }

  /** The approvals that were granted. */
  function Grants(trace: seq<Observation>): nat
  {
    if trace == [] then 0
    else Grants(trace[..|trace| - 1]) + (if trace[|trace| - 1].ApprovedBy? then 1 else 0)
  }

  /** The claimed deliveries whose event is still to be written. */
  function OutstandingEvents(hands: seq<Hand>): nat
  {
    if hands == [] then 0 else OutstandingEvents(hands[..|hands| - 1]) + |Unrecorded(hands[|hands| - 1])|
  }

  function DryRuns(calls: seq<ToolCall>): nat
  {
    if calls == [] then 0
    else DryRuns(calls[..|calls| - 1]) + (if calls[|calls| - 1].decision == DryRun then 1 else 0)
  }

  /**
   * Every event is a tool call, a granted approval or a delivery; a delivery whose event is missing is in a
   * worker's hand or was lost to a crash. Every approval is a dry run.
   */
  predicate Balanced(w: World)
  {
    && |w.t.events| + OutstandingEvents(w.hands) + |w.lost| == |w.t.calls| + Grants(w.trace) + Delivered(w.t.rows)
    && |w.t.approvals| == DryRuns(w.t.calls)
  }

  // ---------------------------------------------------------------- sums

  lemma {:induction false} DeliveredUpdate(rows: seq<Row>, i: nat, row: Row)
    requires i < |rows|
    ensures Delivered(rows[i := row]) == Delivered(rows) - rows[i].deliveries + row.deliveries
    decreases |rows|
  {
    var n := |rows| - 1;
    if i < n {
      assert rows[i := row][..n] == rows[..n][i := row];
      DeliveredUpdate(rows[..n], i, row);
    } else {
      assert rows[i := row][..n] == rows[..n];
    }
  }

  lemma {:induction false} PendingUpdate(hands: seq<Hand>, i: nat, hand: Hand)
    requires i < |hands|
    ensures OutstandingEvents(hands[i := hand])
            == OutstandingEvents(hands) - |Unrecorded(hands[i])| + |Unrecorded(hand)|
    decreases |hands|
  {
    var n := |hands| - 1;
    if i < n {
      assert hands[i := hand][..n] == hands[..n][i := hand];
      PendingUpdate(hands[..n], i, hand);
    } else {
      assert hands[i := hand][..n] == hands[..n];
    }
  }

  lemma {:induction false} ClaimDelivers(rows: seq<Row>, ids: seq<nat>, now: int, timeout: int)
    requires forall i :: 0 <= i < |ids| ==> ids[i] < |rows|
    requires forall i, j :: 0 <= i < j < |ids| ==> ids[i] != ids[j]
    ensures Delivered(ClaimAll(rows, ids, now, timeout)) == Delivered(rows) + |ids|
    decreases |ids|
  {
    if ids == [] {
      assert ClaimAll(rows, ids, now, timeout) == rows;
    } else {
      var n := |ids| - 1;
      ClaimDelivers(rows, ids[..n], now, timeout);
      assert ids[..n + 1] == ids;
      ClaimOneMore(rows, ids, n, now, timeout);
      DeliveredUpdate(ClaimAll(rows, ids[..n], now, timeout), ids[n], ClaimRow(rows[ids[n]], now, timeout));
    }
  }

  lemma PublishDelivers(rows: seq<Row>, queue: string, body: Body, now: int)
    ensures Delivered(Published(rows, queue, body, now)) == Delivered(rows)
  {
    var after := Published(rows, queue, body, now);
    assert after[..|rows|] == rows;
  }

  // ---------------------------------------------------------------- steps

  lemma CommitAccounts(c: Deployment, t: Db, msg: Message, phase: Phase, now: int)
    ensures var turn := Commit(c, t, msg, phase, now);
            && Delivered(turn.db.rows) == Delivered(t.rows)
            && turn.db.calls == t.calls && turn.db.approvals == t.approvals
            && |turn.db.events| == |t.events|
                 + (if phase.Record? || phase.RejectUnknown? || phase.NoteDuplicate? then 1 else 0)
            && (turn.next.Some? ==> (turn.next.value.Settle? <==> phase.Record?)
                                    && (turn.next.value.SettleUnknown? <==> phase.RejectUnknown?))
            && (turn.next.None? <==> phase.Settle? || phase.SettleUnknown? || phase.NoteDuplicate?)
  {
    var rows := Commit(c, t, msg, phase, now).db.rows;
    if msg.handle < |t.rows| {
      assert rows == t.rows[msg.handle := rows[msg.handle]];
      DeliveredUpdate(t.rows, msg.handle, rows[msg.handle]);
    }
  }

  lemma WorkBalances(c: Deployment, w: World, i: nat)
    requires Balanced(w) && i < |w.hands| && Busy(w.hands[i])
    ensures Balanced(AfterWork(c, w, i))
  {
    var h := w.hands[i];
    var msg := h.batch[h.pos];
    CommitAccounts(c, w.t, msg, h.phase, w.clock);
    PendingUpdate(w.hands, i, Advanced(h, Commit(c, w.t, msg, h.phase, w.clock).next));
  }

  lemma ReceiveBalances(c: Deployment, w: World, i: nat, max: nat, timeout: int)
    requires Balanced(w) && i < |w.hands| && !Busy(w.hands[i])
    ensures Balanced(AfterReceive(c, w, i, max, timeout))
  {
    SelectedExact(w.t.rows, c.queue, w.clock, max);
    ClaimDelivers(w.t.rows, Selected(w.t.rows, c.queue, w.clock, max), w.clock, timeout);
    PendingUpdate(w.hands, i, Hand(Batch(c, w.t, max, w.clock), 0, Guard));
  }

  lemma RouteAccounts(c: Deployment, t: Db, req: Request, f: Fresh, res: HandlerResult)
    ensures var r := Route(c, t, req, f, res);
            && (r.response.decision == DryRun <==> r.change.NewApproval?)
            && (r.change.NewApproval? ==>
                  && r.change.approvalId == f.approvalId && r.response.approvalId == Some(f.approvalId)
                  && var approval := r.change.approval;
                     && approval.status == Pending && approval.approvedBy == None && approval.tool == req.tool
                     && approval.agent == req.principal.agentId && approval.role == req.principal.role)
            && (r.change.Consume? <==> r.response.decision == Executed && r.response.approvalId.Some?)
            && (r.change.Consume? ==>
                  && r.response.approvalId == Some(r.change.consumed) && r.change.consumed in t.approvals
                  && t.approvals[r.change.consumed].status == Approved && r.change.approver == req.principal.subject)
            && (r.response.decision != Granted)
  {
  }

  /** An invocation appends one call row with its decision, and one observation that grants nothing. */
  lemma CallCounts(c: Deployment, w: World, req: Request, f: Fresh, res: HandlerResult)
    requires FreshIds(w.t, f)
    ensures var v := AfterCall(c, w, req, f, res);
            && |v.t.events| == |w.t.events| + 1 && |v.t.calls| == |w.t.calls| + 1
            && Grants(v.trace) == Grants(w.trace) && Delivered(v.t.rows) == Delivered(w.t.rows)
            && v.hands == w.hands && v.lost == w.lost
  {
    var v := AfterCall(c, w, req, f, res);
    var change := Route(c, w.t, req, f, res).change;
    InvokeTables(c, w.t, req, f, res, w.clock);
    hide Route; hide Invoke;
    assert v.trace[..|w.trace|] == w.trace;
    if change.Enqueue? {
      PublishDelivers(w.t.rows, c.queue, change.body, w.clock);
    }
  }

  lemma CallDryRuns(c: Deployment, w: World, req: Request, f: Fresh, res: HandlerResult)
    requires FreshIds(w.t, f)
    ensures var v := AfterCall(c, w, req, f, res);
            |v.t.approvals| - |w.t.approvals| == DryRuns(v.t.calls) - DryRuns(w.t.calls)
  {
    var v := AfterCall(c, w, req, f, res);
    InvokeTables(c, w.t, req, f, res, w.clock);
    assert v.t.calls[|w.t.calls|].decision == Route(c, w.t, req, f, res).response.decision;
    RouteAccounts(c, w.t, req, f, res);
    CallApprovals(c, w.t, req, f, res, w.clock);
    hide Route; hide Invoke;
  }

  lemma CallBalances(c: Deployment, w: World, req: Request, f: Fresh, res: HandlerResult)
    requires Balanced(w) && FreshIds(w.t, f)
    ensures Balanced(AfterCall(c, w, req, f, res))
  {
    hide AfterCall; hide Grants; hide Delivered; hide DryRuns;
    CallCounts(c, w, req, f, res);
    CallDryRuns(c, w, req, f, res);
  }

  lemma SubmitBalances(c: Deployment, w: World, req: Request, f: Fresh)
    requires Balanced(w) && Queueable(c, req)
    ensures Balanced(AfterSubmit(c, w, req, f))
  {
    hide Balanced; hide Published;
    var args := c.registry[req.tool].validate(req.arguments).value;
    AddedRowBalances(w, AfterSubmit(c, w, req, f), c.queue, SubmissionBody(req, args, f), w.clock);
  }

  lemma ConcludeBalances(c: Deployment, w: World, j: string)
    requires Balanced(w) && CanConclude(w, j)
    ensures Balanced(AfterConclude(c, w, j))
  {
    var v := AfterConclude(c, w, j);
    assert v.trace[..|w.trace|] == w.trace && v.t.calls[..|w.t.calls|] == w.t.calls;
  }

  lemma MapSize<K, V>(m: map<K, V>, k: K, v: V)
    ensures |m[k := v]| == |m| + (if k in m then 0 else 1)
  {
    assert m[k := v].Keys == m.Keys + {k};
  }

  lemma EnactApprovals(c: Deployment, t: Db, change: Change, now: int)
    requires change.NewApproval? ==> change.approvalId !in t.approvals
    ensures |Enact(c, t, change, now).approvals| == |t.approvals| + (if change.NewApproval? then 1 else 0)
  {
    match change
    case NewApproval(id, approval) => MapSize(t.approvals, id, approval);
    case Consume(id, approver) =>
      if id in t.approvals {
        MapSize(t.approvals, id, t.approvals[id].(status := Consumed, approvedBy := Some(approver)));
      }
    case _ =>
  }

  lemma CallApprovals(c: Deployment, t: Db, req: Request, f: Fresh, res: HandlerResult, now: int)
    requires FreshIds(t, f)
    ensures |Invoke(c, t, req, f, res, now).approvals|
            == |t.approvals| + (if Route(c, t, req, f, res).change.NewApproval? then 1 else 0)
  {
    RouteAccounts(c, t, req, f, res);
    EnactApprovals(c, t, Route(c, t, req, f, res).change, now);
  }

  lemma GrantBalances(c: Deployment, w: World, who: Principal, id: string)
    requires Balanced(w) && MayApprove(w.t, who, id)
    ensures Balanced(Apply(c, w, Grant(who, id)))
  {
    var v := Apply(c, w, Grant(who, id));
    assert v.trace[..|w.trace|] == w.trace;
    assert v.t.approvals.Keys == w.t.approvals.Keys;
  }

  lemma AddedRowBalances(w: World, v: World, queue: string, body: Body, now: int)
    requires Balanced(w) && v.t == w.t.(rows := Published(w.t.rows, queue, body, now))
    requires v.trace == w.trace && v.hands == w.hands && v.lost == w.lost
    ensures Balanced(v)
  {
    PublishDelivers(w.t.rows, queue, body, now);
  }

  lemma IdleOwesNothing()
    ensures Unrecorded(IDLE) == []
  {
  }

  lemma CrashBalances(c: Deployment, w: World, i: nat)
    requires Balanced(w)
    ensures Balanced(Apply(c, w, Crash(i)))
  {
    hide Unrecorded; hide OutstandingEvents; hide Delivered; hide Grants; hide DryRuns;
    if i < |w.hands| {
      PendingUpdate(w.hands, i, IDLE);
      IdleOwesNothing();
    }
  }

  /** Publishing, the clock and crashes write no audit row. */
  lemma QuietBalances(c: Deployment, w: World, s: Step)
    requires Balanced(w) && (s.Publish? || s.Republish? || s.Crash? || s.Tick?)
    ensures Balanced(Apply(c, w, s))
  {
    if s.Publish? {
      hide Balanced; hide Published;
      AddedRowBalances(w, Apply(c, w, s), s.queue, s.body, w.clock);
    } else if s.Republish? {
      hide Balanced; hide Published;
      if s.handle < |w.t.rows| {
        AddedRowBalances(w, Apply(c, w, s), w.t.rows[s.handle].queue, w.t.rows[s.handle].body, w.clock);
      }
    } else if s.Crash? {
      hide Balanced;
      CrashBalances(c, w, s.worker);
    }
  }

  lemma StepBalances(c: Deployment, w: World, s: Step)
    requires Balanced(w)
    ensures Balanced(Apply(c, w, s))
  {
    hide Balanced; hide AfterCall; hide AfterWork; hide AfterReceive; hide AfterSubmit; hide AfterConclude;
    match s
    case Submit(req, f) =>
      if FreshIn(w, f) && Queueable(c, req) {
        SubmitBalances(c, w, req, f);
      }
    case Conclude(j) =>
      if CanConclude(w, j) {
        ConcludeBalances(c, w, j);
      }
    case Call(req, f, res) =>
      if FreshIn(w, f) {
        CallBalances(c, w, req, f, res);
      }
    case Grant(who, id) =>
      if MayApprove(w.t, who, id) {
        GrantBalances(c, w, who, id);
      }
    case Receive(i, max, timeout) =>
      if i < |w.hands| && !Busy(w.hands[i]) {
        ReceiveBalances(c, w, i, max, timeout);
      }
    case Work(i) =>
      if i < |w.hands| && Busy(w.hands[i]) {
        WorkBalances(c, w, i);
      }
    case _ => QuietBalances(c, w, s);
  }

  lemma {:induction false} RunBalances(c: Deployment, w: World, steps: seq<Step>)
    requires Balanced(w)
    ensures Balanced(Run(c, w, steps))
    decreases |steps|
  {
    if steps != [] {
      StepBalances(c, w, steps[0]);
      RunBalances(c, Apply(c, w, steps[0]), steps[1..]);
    }
  }

  lemma {:induction false} NothingPending(hands: seq<Hand>)
    requires forall i :: 0 <= i < |hands| ==> !Busy(hands[i])
    ensures OutstandingEvents(hands) == 0
  {
    if hands != [] {
      NothingPending(hands[..|hands| - 1]);
    }
  }

  /** The balance holds at every commit point of every schedule, with any messages in the queue. */
  lemma AuditConservation(c: Deployment, workers: nat, steps: seq<Step>)
    ensures Balanced(Run(c, Init(workers), steps))
  {
    NothingPending(Init(workers).hands);
    RunBalances(c, Init(workers), steps);
  }

  lemma {:induction false} NothingLost(c: Deployment, w: World, steps: seq<Step>)
    requires forall i :: 0 <= i < |steps| ==> !steps[i].Crash?
    ensures Run(c, w, steps).lost == w.lost
    decreases |steps|
  {
    if steps != [] {
      NothingLost(c, Apply(c, w, steps[0]), steps[1..]);
    }
  }

  /** Between polls of crash-free workers the audit trail is complete. */
  lemma AuditCompleteBetweenPolls(c: Deployment, workers: nat, steps: seq<Step>)
    requires forall i :: 0 <= i < |steps| ==> !steps[i].Crash?
    requires forall a :: 0 <= a < |Run(c, Init(workers), steps).hands| ==> !Busy(Run(c, Init(workers), steps).hands[a])
    ensures var w := Run(c, Init(workers), steps);
            |w.t.events| == |w.t.calls| + Grants(w.trace) + Delivered(w.t.rows)
  {
    AuditConservation(c, workers, steps);
    NothingLost(c, Init(workers), steps);
    NothingPending(Run(c, Init(workers), steps).hands);
  }
}
