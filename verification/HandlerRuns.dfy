/** No worker runs the tool twice for one delivery of one row, whoever publishes and whatever crashes. */
module HandlerRuns {
  import opened Tables
  import opened Catalog
  import opened Gateway
  import opened Worker
  import opened Protocol
  import opened QueueRuns

  predicate SameDelivery(a: Message, b: Message)
  {
    a.handle == b.handle && a.deliveries == b.deliveries
  }

  ghost predicate Distinct(runs: seq<HandlerRun>)
  {
    forall i, j :: 0 <= i < j < |runs| && runs[i].InWorker? && runs[j].InWorker? ==>
      !SameDelivery(runs[i].message, runs[j].message)
  }

  /** A run is for a delivery that its row has had. */
  ghost predicate RunsHappened(w: World)
  {
    forall n :: 0 <= n < |w.runs| && w.runs[n].InWorker? ==>
      && w.runs[n].message.handle < |w.t.rows|
      && w.runs[n].message.deliveries <= w.t.rows[w.runs[n].message.handle].deliveries
  }

  /** The message at hand in this phase has been run. */
  predicate HasRun(h: Hand, p: nat)
  {
    p == h.pos && (h.phase.Record? || h.phase.Settle?)
  }

  ghost predicate HandsKnowRuns(w: World)
  {
    forall n: nat, a: nat, p: nat :: n < |w.runs| && w.runs[n].InWorker? && InHand(w, a, p) ==>
      SameDelivery(w.runs[n].message, w.hands[a].batch[p]) ==> HasRun(w.hands[a], p)
  }

  ghost predicate OnceInv(w: World)
  {
    Distinct(w.runs) && RunsHappened(w) && HandsKnowRuns(w)
  }

  lemma ReceiveKeepsOnce(c: Deployment, w: World, i: nat, max: nat, timeout: int)
    requires OnceInv(w) && i < |w.hands| && !Busy(w.hands[i])
    ensures OnceInv(AfterReceive(c, w, i, max, timeout))
  {
    var v := AfterReceive(c, w, i, max, timeout);
    var ids := Selected(w.t.rows, c.queue, w.clock, max);
    forall n: nat, p: nat | n < |v.runs| && v.runs[n].InWorker? && InHand(v, i, p)
      ensures !SameDelivery(v.runs[n].message, v.hands[i].batch[p])
    {
      assert v.hands[i].batch[p].handle == ids[p];
    }
    forall n: nat, a: nat, p: nat | n < |v.runs| && v.runs[n].InWorker? && InHand(v, a, p) && a != i
      ensures SameDelivery(v.runs[n].message, v.hands[a].batch[p]) ==> HasRun(v.hands[a], p)
    {
      assert InHand(w, a, p);
    }
  }

  lemma WorkKeepsDistinct(c: Deployment, w: World, i: nat)
    requires OnceInv(w) && i < |w.hands| && Busy(w.hands[i])
    ensures Distinct(AfterWork(c, w, i).runs)
  {
    hide Commit;
    var h := w.hands[i];
    assert InHand(w, i, h.pos);
  }

  lemma WorkKeepsHappened(c: Deployment, w: World, i: nat)
    requires QueueInv(c, w) && OnceInv(w) && i < |w.hands| && Busy(w.hands[i])
    ensures RunsHappened(AfterWork(c, w, i))
  {
    var h := w.hands[i];
    assert InHand(w, i, h.pos) && HoldsRow(c, w.t.rows, h, h.pos);
    CommitTouchesOneRow(c, w.t, h.batch[h.pos], h.phase, w.clock);
    hide Commit;
  }

  /** Where a hand goes from its phase. */
  lemma NextOfPhase(c: Deployment, t: Db, msg: Message, phase: Phase, now: int)
    ensures var next := Commit(c, t, msg, phase, now).next;
            && (phase.RunTool? ==> next.Some? && next.value.Record?)
            && (phase.Record? ==> next.Some? && next.value.Settle?)
            && (phase.Settle? ==> next.None?)
  {
  }

  lemma WorkKeepsHandsKnow(c: Deployment, w: World, i: nat)
    requires QueueInv(c, w) && OnceInv(w) && i < |w.hands| && Busy(w.hands[i])
    ensures HandsKnowRuns(AfterWork(c, w, i))
  {
    var v := AfterWork(c, w, i);
    var h := w.hands[i];
    var msg := h.batch[h.pos];
    NextOfPhase(c, w.t, msg, h.phase, w.clock);
    hide Commit;
    assert InHand(w, i, h.pos);
    forall n: nat, a: nat, p: nat | n < |v.runs| && v.runs[n].InWorker? && InHand(v, a, p)
      && SameDelivery(v.runs[n].message, v.hands[a].batch[p])
      ensures HasRun(v.hands[a], p)
    {
      assert InHand(w, a, p) && v.hands[a].batch == w.hands[a].batch;
      if n == |w.runs| {
        assert v.runs[n].message == msg;
        assert a == i && p == h.pos;
      }
    }
  }

  lemma StepKeepsOnce(c: Deployment, w: World, s: Step)
    requires QueueInv(c, w) && OnceInv(w)
    ensures OnceInv(Apply(c, w, s))
  {
    match s
    case Receive(i, max, timeout) =>
      if i < |w.hands| && !Busy(w.hands[i]) {
        ReceiveKeepsOnce(c, w, i, max, timeout);
      }
    case Work(i) =>
      if i < |w.hands| && Busy(w.hands[i]) {
        WorkKeepsDistinct(c, w, i);
        WorkKeepsHappened(c, w, i);
        WorkKeepsHandsKnow(c, w, i);
      }
    case Crash(i) => CrashKeepsOnce(c, w, i);
    case _ => OutsideKeepsOnce(c, w, s);
  }

  lemma CrashKeepsOnce(c: Deployment, w: World, i: nat)
    requires OnceInv(w)
    ensures OnceInv(Apply(c, w, Crash(i)))
  {
    var v := Apply(c, w, Crash(i));
    forall a: nat, p: nat | InHand(v, a, p) ensures InHand(w, a, p) && v.hands[a] == w.hands[a] {
    }
  }

  lemma OutsideKeepsOnce(c: Deployment, w: World, s: Step)
    requires OnceInv(w) && !s.Receive? && !s.Work? && !s.Crash?
    ensures OnceInv(Apply(c, w, s))
  {
    hide Route; hide Invoke; hide Commit; hide Received; hide FreshIn; hide Queueable;
    var v := Apply(c, w, s);
    OutsideStepsAppend(c, w, s);
    forall n | 0 <= n < |v.runs| && v.runs[n].InWorker? ensures n < |w.runs| && v.runs[n] == w.runs[n] {
    }
    forall r | 0 <= r < |w.t.rows| ensures v.t.rows[r] == w.t.rows[r] {
      assert v.t.rows[r] == v.t.rows[..|w.t.rows|][r];
    }
    forall n: nat, a: nat, p: nat | n < |v.runs| && v.runs[n].InWorker? && InHand(v, a, p)
      && SameDelivery(v.runs[n].message, v.hands[a].batch[p])
      ensures HasRun(v.hands[a], p)
    {
      assert InHand(w, a, p);
    }
  }

  lemma {:induction false} RunKeepsOnce(c: Deployment, w: World, steps: seq<Step>)
    requires QueueInv(c, w) && OnceInv(w)
    ensures OnceInv(Run(c, w, steps))
    decreases |steps|
  {
    if steps != [] {
      StepKeepsOnce(c, w, steps[0]);
      StepKeepsQueue(c, w, steps[0]);
      RunKeepsOnce(c, Apply(c, w, steps[0]), steps[1..]);
    }
  }

  /** In every run, with any messages in the queue, two handler runs are for different rows or different deliveries. */
  lemma NoDeliveryRunsTwice(c: Deployment, workers: nat, steps: seq<Step>, i: nat, j: nat)
    requires i < j < |Run(c, Init(workers), steps).runs|
    requires Run(c, Init(workers), steps).runs[i].InWorker? && Run(c, Init(workers), steps).runs[j].InWorker?
    ensures !SameDelivery(Run(c, Init(workers), steps).runs[i].message, Run(c, Init(workers), steps).runs[j].message)
  {
    QueueInvariant(c, workers, []);
    RunKeepsOnce(c, Init(workers), steps);
  }
}
