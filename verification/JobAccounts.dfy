/** Every delivery has its event: the balance of one job, and the one way in which an event can stay missing. */
module JobAccounts {
  import opened Tables
  import opened Catalog
  import opened LocalQueue
  import opened Gateway
  import opened Worker
  import opened Protocol
  import opened QueueRuns
  import opened AuditTrail
  import opened DeliveryRuns

  // ---------------------------------------------------------------- counting by job

  /** The events that workers wrote about the job. */
  function JobEvents(events: seq<Event>, id: string): nat
  {
    if events == [] then 0
    else
      var last := events[|events| - 1];
      JobEvents(events[..|events| - 1], id) + (if !ByGateway(last) && last.requestId == id then 1 else 0)
  }

  /** The deliveries of the job's rows. */
  function DeliveriesOf(rows: seq<Row>, id: string): nat
  {
    if rows == [] then 0
    else
      var last := rows[|rows| - 1];
      DeliveriesOf(rows[..|rows| - 1], id) + (if RequestId(last.body) == id then last.deliveries else 0)
  }

  function Among(messages: seq<Message>, id: string): nat
  {
    if messages == [] then 0
    else Among(messages[1..], id) + (if RequestId(messages[0].body) == id then 1 else 0)
  }

  /** The job's deliveries in workers' hands whose event is still to be written. */
  function Outstanding(hands: seq<Hand>, id: string): nat
  {
    if hands == [] then 0 else Outstanding(hands[..|hands| - 1], id) + Among(Unrecorded(hands[|hands| - 1]), id)
  }

  /** Each delivery of the job has one event, or its worker has still to write it, or crashed before that. */
  predicate JobBalanced(w: World, id: string)
  {
    JobEvents(w.t.events, id) + Outstanding(w.hands, id) + Among(w.lost, id) == DeliveriesOf(w.t.rows, id)
  }

  // ---------------------------------------------------------------- sums

  lemma {:induction false} AmongConcat(a: seq<Message>, b: seq<Message>, id: string)
    ensures Among(a + b, id) == Among(a, id) + Among(b, id)
    decreases |a|
  {
    if a == [] {
      assert a + b == b;
    } else {
      assert (a + b)[1..] == a[1..] + b;
      AmongConcat(a[1..], b, id);
    }
  }

  lemma {:induction false} OutstandingUpdate(hands: seq<Hand>, i: nat, hand: Hand, id: string)
    requires i < |hands|
    ensures Outstanding(hands[i := hand], id)
            == Outstanding(hands, id) - Among(Unrecorded(hands[i]), id) + Among(Unrecorded(hand), id)
    decreases |hands|
  {
    var n := |hands| - 1;
    if i < n {
      assert hands[i := hand][..n] == hands[..n][i := hand];
      OutstandingUpdate(hands[..n], i, hand, id);
    } else {
      assert hands[i := hand][..n] == hands[..n];
    }
  }

  lemma {:induction false} DeliveriesUpdate(rows: seq<Row>, i: nat, row: Row, id: string)
    requires i < |rows| && row.body == rows[i].body
    ensures DeliveriesOf(rows[i := row], id)
            == DeliveriesOf(rows, id) + (if RequestId(row.body) == id then row.deliveries - rows[i].deliveries else 0)
    decreases |rows|
  {
    var n := |rows| - 1;
    if i < n {
      assert rows[i := row][..n] == rows[..n][i := row];
      DeliveriesUpdate(rows[..n], i, row, id);
    } else {
      assert rows[i := row][..n] == rows[..n];
    }
  }

  lemma AmongOne(messages: seq<Message>, m: Message, id: string)
    ensures Among(messages + [m], id) == Among(messages, id) + (if RequestId(m.body) == id then 1 else 0)
  {
    AmongConcat(messages, [m], id);
    assert [m][1..] == [];
  }

  lemma {:induction false} ClaimDelivers(rows: seq<Row>, ids: seq<nat>, now: int, timeout: int, id: string)
    requires forall i :: 0 <= i < |ids| ==> ids[i] < |rows|
    requires forall i, j :: 0 <= i < j < |ids| ==> ids[i] != ids[j]
    ensures DeliveriesOf(ClaimAll(rows, ids, now, timeout), id)
            == DeliveriesOf(rows, id) + Among(MessagesOf(rows, ids), id)
    decreases |ids|
  {
    if ids == [] {
      assert ClaimAll(rows, ids, now, timeout) == rows;
    } else {
      var n := |ids| - 1;
      ClaimDelivers(rows, ids[..n], now, timeout, id);
      assert ids[..n + 1] == ids;
      ClaimOneMore(rows, ids, n, now, timeout);
      DeliveriesUpdate(ClaimAll(rows, ids[..n], now, timeout), ids[n], ClaimRow(rows[ids[n]], now, timeout), id);
      AmongOne(MessagesOf(rows, ids[..n]), Message(rows[ids[n]].body, rows[ids[n]].deliveries + 1, ids[n]), id);
    }
  }

  lemma JobEventsAppend(events: seq<Event>, e: Event, id: string)
    ensures JobEvents(events + [e], id) == JobEvents(events, id) + (if !ByGateway(e) && e.requestId == id then 1 else 0)
  {
    assert (events + [e])[..|events|] == events;
  }

  lemma PublishDelivers(rows: seq<Row>, queue: string, body: Body, now: int, id: string)
    ensures DeliveriesOf(Published(rows, queue, body, now), id) == DeliveriesOf(rows, id)
  {
    assert Published(rows, queue, body, now)[..|rows|] == rows;
  }

  // ---------------------------------------------------------------- steps

  /** A commit that writes an event writes one about its message, and then the message no longer counts. */
  lemma CommitAccounts(c: Deployment, t: Db, h: Hand, now: int, id: string)
    requires Busy(h)
    ensures var msg := h.batch[h.pos];
            var turn := Commit(c, t, msg, h.phase, now);
            && DeliveriesOf(turn.db.rows, id) == DeliveriesOf(t.rows, id)
            && JobEvents(turn.db.events, id) + Among(Unrecorded(Advanced(h, turn.next)), id)
               == JobEvents(t.events, id) + Among(Unrecorded(h), id)
  {
    hide Commit; hide DeliveriesOf; hide JobEvents;
    var msg := h.batch[h.pos];
    var turn := Commit(c, t, msg, h.phase, now);
    CommitDelivers(c, t, msg, h.phase, now, id);
    CommitWrites(c, t, msg, h.phase, now, id);
    WritingPhases(c, t, msg, h.phase, now);
    assert h.batch[h.pos..] == [msg] + h.batch[h.pos + 1..];
    AmongConcat([msg], h.batch[h.pos + 1..], id);
    assert [msg][1..] == [];
  }

  lemma CommitDelivers(c: Deployment, t: Db, msg: Message, phase: Phase, now: int, id: string)
    ensures DeliveriesOf(Commit(c, t, msg, phase, now).db.rows, id) == DeliveriesOf(t.rows, id)
  {
    var rows := Commit(c, t, msg, phase, now).db.rows;
    if msg.handle < |t.rows| {
      assert rows == t.rows[msg.handle := rows[msg.handle]];
      DeliveriesUpdate(t.rows, msg.handle, rows[msg.handle], id);
    }
  }

  predicate Writes(phase: Phase)
  {
    phase.Record? || phase.RejectUnknown? || phase.NoteDuplicate?
  }

  /** What a commit appends to the events. */
  lemma CommitAppends(c: Deployment, t: Db, msg: Message, phase: Phase, now: int) returns (e: Event)
    ensures var events := Commit(c, t, msg, phase, now).db.events;
            && (Writes(phase) ==> events == t.events + [e] && !ByGateway(e) && e.requestId == RequestId(msg.body))
            && (!Writes(phase) ==> events == t.events)
  {
    var events := Commit(c, t, msg, phase, now).db.events;
    e := if |events| > 0 then events[|events| - 1] else JobEvent(msg.body, JobRetry, Faulted, []);
  }

  lemma CommitWrites(c: Deployment, t: Db, msg: Message, phase: Phase, now: int, id: string)
    ensures JobEvents(Commit(c, t, msg, phase, now).db.events, id)
            == JobEvents(t.events, id) + (if Writes(phase) && RequestId(msg.body) == id then 1 else 0)
  {
    hide Commit;
    var e := CommitAppends(c, t, msg, phase, now);
    JobEventsAppend(t.events, e, id);
  }

  lemma WritingPhases(c: Deployment, t: Db, msg: Message, phase: Phase, now: int)
    ensures var next := Commit(c, t, msg, phase, now).next;
            && (next.Some? ==> (next.value.Settle? || next.value.SettleUnknown? <==> Writes(phase)))
            && (next.None? <==> phase.Settle? || phase.SettleUnknown? || phase.NoteDuplicate?)
  {
  }

  lemma WorkBalances(c: Deployment, w: World, i: nat, id: string)
    requires JobBalanced(w, id) && i < |w.hands| && Busy(w.hands[i])
    ensures JobBalanced(AfterWork(c, w, i), id)
  {
    var h := w.hands[i];
    CommitAccounts(c, w.t, h, w.clock, id);
    hide Commit;
    OutstandingUpdate(w.hands, i, Advanced(h, Commit(c, w.t, h.batch[h.pos], h.phase, w.clock).next), id);
  }

  lemma ReceiveBalances(c: Deployment, w: World, i: nat, max: nat, timeout: int, id: string)
    requires JobBalanced(w, id) && i < |w.hands| && !Busy(w.hands[i])
    ensures JobBalanced(AfterReceive(c, w, i, max, timeout), id)
  {
    var ids := Selected(w.t.rows, c.queue, w.clock, max);
    var batch := Batch(c, w.t, max, w.clock);
    SelectedExact(w.t.rows, c.queue, w.clock, max);
    ClaimDelivers(w.t.rows, ids, w.clock, timeout, id);
    OutstandingUpdate(w.hands, i, Hand(batch, 0, Guard), id);
    assert Unrecorded(Hand(batch, 0, Guard)) == batch;
  }

  lemma CallBalances(c: Deployment, w: World, req: Request, f: Fresh, res: HandlerResult, id: string)
    requires JobBalanced(w, id)
    ensures JobBalanced(AfterCall(c, w, req, f, res), id)
  {
    var r := Route(c, w.t, req, f, res);
    InvokeAppends(c, w.t, req, f, res, w.clock);
    InvokeTables(c, w.t, req, f, res, w.clock);
    JobEventsAppend(w.t.events, CallEvent(req, r.response), id);
    if r.change.Enqueue? {
      PublishDelivers(w.t.rows, c.queue, r.change.body, w.clock, id);
    }
  }

  lemma AddedRowBalances(w: World, v: World, queue: string, body: Body, now: int, id: string)
    requires JobBalanced(w, id) && v.t.rows == Published(w.t.rows, queue, body, now)
    requires v.t.events == w.t.events && v.hands == w.hands && v.lost == w.lost
    ensures JobBalanced(v, id)
  {
    PublishDelivers(w.t.rows, queue, body, now, id);
  }

  lemma PublishBalances(c: Deployment, w: World, s: Step, id: string)
    requires JobBalanced(w, id) && (s.Publish? || s.Republish?)
    ensures JobBalanced(Apply(c, w, s), id)
  {
    hide JobBalanced; hide Published;
    if s.Publish? {
      AddedRowBalances(w, Apply(c, w, s), s.queue, s.body, w.clock, id);
    } else if s.handle < |w.t.rows| {
      AddedRowBalances(w, Apply(c, w, s), w.t.rows[s.handle].queue, w.t.rows[s.handle].body, w.clock, id);
    }
  }

  lemma SubmitBalances(c: Deployment, w: World, req: Request, f: Fresh, id: string)
    requires JobBalanced(w, id) && Queueable(c, req)
    ensures JobBalanced(AfterSubmit(c, w, req, f), id)
  {
    hide JobBalanced; hide Published;
    var args := c.registry[req.tool].validate(req.arguments).value;
    AddedRowBalances(w, AfterSubmit(c, w, req, f), c.queue, SubmissionBody(req, args, f), w.clock, id);
  }

  lemma ConcludeBalances(c: Deployment, w: World, j: string, id: string)
    requires JobBalanced(w, id) && CanConclude(w, j)
    ensures JobBalanced(AfterConclude(c, w, j), id)
  {
    var s := w.open[j];
    JobEventsAppend(w.t.events, CallEvent(s.req, QueuedResponse(s.req, s.f, s.f.jobId)), id);
  }

  lemma CrashBalances(c: Deployment, w: World, i: nat, id: string)
    requires JobBalanced(w, id)
    ensures JobBalanced(Apply(c, w, Crash(i)), id)
  {
    hide Unrecorded;
    if i < |w.hands| {
      OutstandingUpdate(w.hands, i, IDLE, id);
      AmongConcat(w.lost, Unrecorded(w.hands[i]), id);
      NothingInIdle();
    }
  }

  lemma NothingInIdle()
    ensures Unrecorded(IDLE) == []
  {
  }

  lemma GrantBalances(c: Deployment, w: World, who: Principal, approvalId: string, id: string)
    requires JobBalanced(w, id) && MayApprove(w.t, who, approvalId)
    ensures JobBalanced(Apply(c, w, Grant(who, approvalId)), id)
  {
    JobEventsAppend(w.t.events, GrantEvent(who, w.t.approvals[approvalId].tool, approvalId), id);
  }

  lemma TickBalances(c: Deployment, w: World, d: nat, id: string)
    requires JobBalanced(w, id)
    ensures JobBalanced(Apply(c, w, Tick(d)), id)
  {
  }

  lemma StepBalances(c: Deployment, w: World, s: Step, id: string)
    requires JobBalanced(w, id)
    ensures JobBalanced(Apply(c, w, s), id)
  {
    hide JobBalanced; hide AfterCall; hide AfterWork; hide AfterReceive; hide AfterSubmit; hide AfterConclude;
    match s
    case Submit(req, f) =>
      if FreshIn(w, f) && Queueable(c, req) {
        SubmitBalances(c, w, req, f, id);
      }
    case Conclude(j) =>
      if CanConclude(w, j) {
        ConcludeBalances(c, w, j, id);
      }
    case Call(req, f, res) =>
      if FreshIn(w, f) {
        CallBalances(c, w, req, f, res, id);
      }
    case Receive(i, max, timeout) =>
      if i < |w.hands| && !Busy(w.hands[i]) {
        ReceiveBalances(c, w, i, max, timeout, id);
      }
    case Work(i) =>
      if i < |w.hands| && Busy(w.hands[i]) {
        WorkBalances(c, w, i, id);
      }
    case Grant(who, approvalId) =>
      if MayApprove(w.t, who, approvalId) {
        GrantBalances(c, w, who, approvalId, id);
      }
    case Crash(i) => CrashBalances(c, w, i, id);
    case Tick(d) => TickBalances(c, w, d, id);
    case _ => PublishBalances(c, w, s, id);
  }

  lemma {:induction false} RunBalances(c: Deployment, w: World, steps: seq<Step>, id: string)
    requires JobBalanced(w, id)
    ensures JobBalanced(Run(c, w, steps), id)
    decreases |steps|
  {
    if steps != [] {
      StepBalances(c, w, steps[0], id);
      RunBalances(c, Apply(c, w, steps[0]), steps[1..], id);
    }
  }

  lemma {:induction false} NoneOutstanding(hands: seq<Hand>, id: string)
    requires forall a :: 0 <= a < |hands| ==> Among(Unrecorded(hands[a]), id) == 0
    ensures Outstanding(hands, id) == 0
  {
    if hands != [] {
      NoneOutstanding(hands[..|hands| - 1], id);
    }
  }

  lemma {:induction false} OutstandingCovers(hands: seq<Hand>, a: nat, id: string)
    requires a < |hands|
    ensures Among(Unrecorded(hands[a]), id) <= Outstanding(hands, id)
    decreases |hands|
  {
    if a < |hands| - 1 {
      OutstandingCovers(hands[..|hands| - 1], a, id);
    }
  }

  lemma {:induction false} AmongIsMembership(messages: seq<Message>, id: string)
    ensures Among(messages, id) == 0 <==> forall m :: m in messages ==> RequestId(m.body) != id
  {
    if messages != [] {
      AmongIsMembership(messages[1..], id);
    }
  }

  /** At every commit point of every schedule each delivery of a job is accounted for. */
  lemma JobConservation(c: Deployment, workers: nat, steps: seq<Step>, id: string)
    ensures JobBalanced(Run(c, Init(workers), steps), id)
  {
    NoneOutstanding(Init(workers).hands, id);
    RunBalances(c, Init(workers), steps, id);
  }

  // ---------------------------------------------------------------- when events are missing

  ghost predicate NoneLocked(rows: seq<Row>, id: string)
  {
    forall r :: 0 <= r < |rows| && RequestId(rows[r].body) == id ==> rows[r].status != Locked
  }

  /** Worker `a` has completed the row of one of the job's duplicates and has still to note it. */
  predicate Noting(w: World, a: nat, id: string)
  {
    && a < |w.hands| && Busy(w.hands[a]) && w.hands[a].phase.NoteDuplicate?
    && RequestId(w.hands[a].batch[w.hands[a].pos].body) == id
  }

  /** Step k of the schedule is the crash of a worker at that point. */
  predicate CrashesNoting(c: Deployment, w: World, steps: seq<Step>, k: nat, id: string)
  {
    k < |steps| && steps[k].Crash? && Noting(Run(c, w, steps[..k]), steps[k].worker, id)
  }

  /** A worker stands, or crashed, between completing the row of one of the job's duplicates and noting it. */
  ghost predicate Interrupted(c: Deployment, w: World, steps: seq<Step>, id: string)
  {
    (exists k :: CrashesNoting(c, w, steps, k, id)) || (exists a :: Noting(Run(c, w, steps), a, id))
  }

  lemma RunUpTo(c: Deployment, w: World, steps: seq<Step>, n: nat)
    requires n < |steps|
    ensures Run(c, w, steps[..n + 1]) == Apply(c, Run(c, w, steps[..n]), steps[n])
  {
    assert steps[..n + 1] == steps[..n] + [steps[n]];
    RunSnoc(c, w, steps[..n], steps[n]);
  }

  /** A dropped message was in the hand of a worker when that worker crashed. */
  lemma {:induction false} DroppedByCrash(c: Deployment, w: World, steps: seq<Step>, n: nat, m: Message)
    returns (k: nat)
    requires n <= |steps| && m !in w.lost && m in Run(c, w, steps[..n]).lost
    ensures k < n && steps[k].Crash? && steps[k].worker < |Run(c, w, steps[..k]).hands|
    ensures m in Unrecorded(Run(c, w, steps[..k]).hands[steps[k].worker])
    decreases n
  {
    assert steps[..0] == [];
    assert n > 0;
    RunUpTo(c, w, steps, n - 1);
    if m in Run(c, w, steps[..n - 1]).lost {
      k := DroppedByCrash(c, w, steps, n - 1, m);
    } else {
      k := n - 1;
    }
  }

  lemma {:induction false} LostStays(c: Deployment, w: World, steps: seq<Step>, m: Message)
    requires m in w.lost
    ensures m in Run(c, w, steps).lost
    decreases |steps|
  {
    if steps != [] {
      LostStays(c, Apply(c, w, steps[0]), steps[1..], m);
    }
  }

  lemma RunFrom(c: Deployment, w: World, steps: seq<Step>, k: nat)
    requires k < |steps|
    ensures Run(c, w, steps) == Run(c, Apply(c, Run(c, w, steps[..k]), steps[k]), steps[k + 1..])
  {
    assert steps == steps[..k + 1] + steps[k + 1..];
    RunConcat(c, w, steps[..k + 1], steps[k + 1..]);
    RunUpTo(c, w, steps, k);
  }

  /** With no row of the job locked, every dropped message of it was dropped by a crash between settle and note. */
  lemma DroppedWhileNoting(c: Deployment, workers: nat, steps: seq<Step>, m: Message) returns (k: nat)
    requires m in Run(c, Init(workers), steps).lost
    requires NoneLocked(Run(c, Init(workers), steps).t.rows, RequestId(m.body))
    ensures CrashesNoting(c, Init(workers), steps, k, RequestId(m.body))
  {
    assert steps[..|steps|] == steps;
    k := DroppedByCrash(c, Init(workers), steps, |steps|, m);
    var u := Run(c, Init(workers), steps[..k]);
    var a := steps[k].worker;
    QueueInvariant(c, workers, steps[..k]);
    var p: nat :| u.hands[a].pos <= p < |u.hands[a].batch| && u.hands[a].batch[p] == m;
    assert InHand(u, a, p) && HoldsRow(c, u.t.rows, u.hands[a], p);
    if u.t.rows[m.handle].status == Locked {
      CrashStrands(c, u, a, p, steps[k + 1..]);
      RunFrom(c, Init(workers), steps, k);
    }
  }

  lemma NotingIsDropped(c: Deployment, w: World, steps: seq<Step>, k: nat, id: string) returns (m: Message)
    requires CrashesNoting(c, w, steps, k, id)
    ensures m in Run(c, w, steps).lost && RequestId(m.body) == id
  {
    var u := Run(c, w, steps[..k]);
    var h := u.hands[steps[k].worker];
    m := h.batch[h.pos];
    assert Unrecorded(h)[0] == m;
    var v := Apply(c, u, steps[k]);
    assert v.lost == u.lost + Unrecorded(h) && v.lost[|u.lost|] == m;
    LostStays(c, v, steps[k + 1..], m);
    RunFrom(c, w, steps, k);
  }

  lemma HandsHaveReported(c: Deployment, w: World, id: string)
    requires QueueInv(c, w) && NoneLocked(w.t.rows, id)
    ensures Outstanding(w.hands, id) == 0 <==> !exists a :: Noting(w, a, id)
  {
    forall a: nat | a < |w.hands| ensures Among(Unrecorded(w.hands[a]), id) == 0 <==> !Noting(w, a, id) {
      OneHandReported(c, w, a, id);
    }
    if a: nat :| a < |w.hands| && Among(Unrecorded(w.hands[a]), id) != 0 {
      OutstandingCovers(w.hands, a, id);
    } else {
      NoneOutstanding(w.hands, id);
    }
  }

  lemma OneHandReported(c: Deployment, w: World, a: nat, id: string)
    requires QueueInv(c, w) && NoneLocked(w.t.rows, id) && a < |w.hands|
    ensures Among(Unrecorded(w.hands[a]), id) == 0 <==> !Noting(w, a, id)
  {
    hide Exclusive; hide InOrder;
    var h := w.hands[a];
    AmongIsMembership(Unrecorded(h), id);
    if Busy(h) && h.phase.NoteDuplicate? {
      assert Unrecorded(h)[0] == h.batch[h.pos] && h.batch[h.pos] in Unrecorded(h);
    }
    forall m | m in Unrecorded(h) && RequestId(m.body) == id
      ensures Busy(h) && h.phase.NoteDuplicate? && m == h.batch[h.pos]
    {
      var p: nat :| h.pos <= p < |h.batch| && h.batch[p] == m;
      assert InHand(w, a, p) && HoldsRow(c, w.t.rows, h, p);
    }
  }

  /**
   * For a job with no locked row, after every schedule: the number of its worker events is the number of its
   * deliveries, unless a worker was interrupted between completing a duplicate's row and noting the duplicate.
   */
  lemma ReportedUnlessInterrupted(c: Deployment, workers: nat, steps: seq<Step>, id: string)
    requires NoneLocked(Run(c, Init(workers), steps).t.rows, id)
    ensures var w := Run(c, Init(workers), steps);
            JobEvents(w.t.events, id) == DeliveriesOf(w.t.rows, id) <==> !Interrupted(c, Init(workers), steps, id)
  {
    var w := Run(c, Init(workers), steps);
    QueueInvariant(c, workers, steps);
    JobConservation(c, workers, steps, id);
    HandsHaveReported(c, w, id);
    AmongIsMembership(w.lost, id);
    hide QueueInv; hide NoneLocked; hide JobEvents; hide DeliveriesOf; hide Noting; hide CrashesNoting; hide Run;
    if m :| m in w.lost && RequestId(m.body) == id {
      var k := DroppedWhileNoting(c, workers, steps, m);
    } else if k: nat :| CrashesNoting(c, Init(workers), steps, k, id) {
      var m := NotingIsDropped(c, Init(workers), steps, k, id);
    }
  }

  lemma {:induction false} DeliveriesOfOne(rows: seq<Row>, r: nat, id: string)
    requires r < |rows| && forall s :: 0 <= s < |rows| ==> (RequestId(rows[s].body) == id <==> s == r)
    ensures DeliveriesOf(rows, id) == rows[r].deliveries
    decreases |rows|
  {
    var n := |rows| - 1;
    if r < n {
      DeliveriesOfOne(rows[..n], r, id);
    } else {
      NoDeliveries(rows[..n], id);
    }
  }

  lemma {:induction false} NoDeliveries(rows: seq<Row>, id: string)
    requires forall s :: 0 <= s < |rows| ==> RequestId(rows[s].body) != id
    ensures DeliveriesOf(rows, id) == 0
  {
    if rows != [] {
      NoDeliveries(rows[..|rows| - 1], id);
    }
  }

  lemma OneRowOfItsJob(c: Deployment, t: Db, r: nat)
    requires AllKnown(c, t) && r < |t.rows|
    ensures forall s :: 0 <= s < |t.rows| ==> (RequestId(t.rows[s].body) == RequestId(t.rows[r].body) <==> s == r)
  {
    forall s | 0 <= s < |t.rows| ensures RequestId(t.rows[s].body) == RequestId(t.rows[r].body) <==> s == r {
      assert t.rows[s].body.jobId.Some? && t.rows[r].body.jobId.Some?;
    }
  }

  /** Once its key is taken a submission stays open for ever: its session can only roll back. */
  lemma {:induction false} TakenStaysOpen(c: Deployment, w: World, steps: seq<Step>, j: string)
    requires j in w.open && EffectiveKey(w.open[j].req, w.open[j].f) in w.t.keys
    ensures j in Run(c, w, steps).open
    decreases |steps|
  {
    if steps != [] {
      TakenStays(c, w, steps[0], j);
      TakenStaysOpen(c, Apply(c, w, steps[0]), steps[1..], j);
    }
  }

  lemma TakenStays(c: Deployment, w: World, s: Step, j: string)
    requires j in w.open && EffectiveKey(w.open[j].req, w.open[j].f) in w.t.keys
    ensures var v := Apply(c, w, s);
            j in v.open && v.open[j] == w.open[j] && EffectiveKey(w.open[j].req, w.open[j].f) in v.t.keys
  {
    KeysStay(c, w, s);
    hide Route; hide Commit; hide Invoke; hide Received;
  }

  lemma KeysStay(c: Deployment, w: World, s: Step)
    ensures w.t.keys.Keys <= Apply(c, w, s).t.keys.Keys
  {
    match s
    case Call(req, f, res) => InvokeTables(c, w.t, req, f, res, w.clock);
    case Work(i) =>
      if i < |w.hands| && Busy(w.hands[i]) {
        KeysFrame(c, w.t, w.hands[i].batch[w.hands[i].pos], w.hands[i].phase, w.clock);
        hide Commit;
      }
    case _ =>
  }

  /** Only the message of a submission whose key is taken is noted as a duplicate. */
  lemma NotedIsTaken(c: Deployment, w: World, a: nat, id: string)
    requires DeliveryInv(c, w) && Noting(w, a, id)
    ensures id in w.open && EffectiveKey(w.open[id].req, w.open[id].f) in w.t.keys
  {
    var h := w.hands[a];
    assert InHand(w, a, h.pos) && HandOk(c, w, a, h.pos) && HoldsRow(c, w.t.rows, h, h.pos);
    var r := h.batch[h.pos].handle;
    assert !Linked(c, w.t, w.t.rows[r]);
    assert Announced(c, w.t, w.t.rows[r]);
  }

  /** A committed job is never interrupted between settle and note. */
  lemma NeverInterrupted(c: Deployment, workers: nat, steps: seq<Step>, id: string)
    requires GatewayOnly(c, Init(workers), steps) && id !in Run(c, Init(workers), steps).open
    ensures !Interrupted(c, Init(workers), steps, id)
  {
    if a: nat :| Noting(Run(c, Init(workers), steps), a, id) {
      DeliveryInvariant(c, workers, steps);
      NotedIsTaken(c, Run(c, Init(workers), steps), a, id);
    }
    if k: nat :| CrashesNoting(c, Init(workers), steps, k, id) {
      assert steps == steps[..k] + steps[k..];
      GatewayOnlyConcat(c, Init(workers), steps[..k], steps[k..]);
      RunConcat(c, Init(workers), steps[..k], steps[k..]);
      DeliveryInvariant(c, workers, steps[..k]);
      var u := Run(c, Init(workers), steps[..k]);
      NotedIsTaken(c, u, steps[k].worker, id);
      TakenStaysOpen(c, u, steps[k..], id);
    }
  }

  /**
   * Every outcome is in the audit trail: when only the gateway publishes and the row's submission is committed, a row
   * that is not locked has exactly one worker event for each of its deliveries, whatever crashed.
   */
  lemma EveryDeliveryIsReported(c: Deployment, workers: nat, steps: seq<Step>, r: nat)
    requires GatewayOnly(c, Init(workers), steps) && r < |Run(c, Init(workers), steps).t.rows|
    requires Run(c, Init(workers), steps).t.rows[r].status != Locked
    requires RequestId(Run(c, Init(workers), steps).t.rows[r].body) !in Run(c, Init(workers), steps).open
    ensures var t := Run(c, Init(workers), steps).t;
            JobEvents(t.events, RequestId(t.rows[r].body)) == t.rows[r].deliveries
  {
    hide DeliveryInv; hide Interrupted; hide RequestId; hide Run;
    var w := Run(c, Init(workers), steps);
    var id := RequestId(w.t.rows[r].body);
    DeliveryInvariant(c, workers, steps);
    NeverInterrupted(c, workers, steps, id);
    RowsAreKnown(c, w);
    OneRowOfItsJob(c, w.t, r);
    DeliveriesOfOne(w.t.rows, r, id);
    ReportedUnlessInterrupted(c, workers, steps, id);
  }

  lemma RowsAreKnown(c: Deployment, w: World)
    requires DeliveryInv(c, w)
    ensures AllKnown(c, w.t)
  {
  }
}
