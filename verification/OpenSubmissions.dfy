/** Submissions between their two commits, and the steps that bring keys and jobs into the tables. */
module OpenSubmissions {
  import opened Tables
  import opened Catalog
  import opened Gateway
  import opened Worker
  import opened Protocol
  import opened QueueRuns

  ghost predicate HasBody(rows: seq<Row>, body: Body)
  {
    exists r :: 0 <= r < |rows| && rows[r].body == body
  }

  /** An open submission was admitted, its message is published, and its job is still to come. */
  ghost predicate SubmissionOk(c: Deployment, t: Db, j: string, s: Submission)
  {
    && s.f.jobId == j && j !in t.jobs && EffectiveKey(s.req, s.f) != ""
    && Admits(c, s.req, s.args) && AsyncOnly(c.registry[s.req.tool])
    && HasBody(t.rows, SubmissionBody(s.req, s.args, s.f))
  }

  ghost predicate OpenOk(c: Deployment, w: World)
  {
    forall j :: j in w.open ==> SubmissionOk(c, w.t, j, w.open[j])
  }

  /** The step brings a new key and a new job into the tables: a whole submission, or the second commit of one. */
  ghost predicate Enqueues(c: Deployment, w: World, s: Step)
  {
    || (s.Call? && FreshIn(w, s.f) && Route(c, w.t, s.req, s.f, s.res).change.Enqueue?)
    || (s.Conclude? && CanConclude(w, s.jobId))
  }

  /** What such a step does. */
  ghost predicate Entered(c: Deployment, w: World, v: World, s: Submission)
  {
    && Admits(c, s.req, s.args) && AsyncOnly(c.registry[s.req.tool])
    && EffectiveKey(s.req, s.f) != "" && EffectiveKey(s.req, s.f) !in w.t.keys && s.f.jobId !in w.t.jobs
    && v.t.jobs == w.t.jobs[s.f.jobId := NewJob(s.req, s.args, s.f)]
    && v.t.keys == w.t.keys[EffectiveKey(s.req, s.f) := SubmissionKey(c, s.req, s.f)]
    && v.trace == w.trace + [Invoked(s.req, QueuedResponse(s.req, s.f, s.f.jobId))]
    && v.runs == w.runs && v.hands == w.hands && v.lost == w.lost && v.clock == w.clock
    && HasBody(v.t.rows, SubmissionBody(s.req, s.args, s.f))
    && s.f.jobId !in v.open
  }

  lemma CallEnters(c: Deployment, w: World, req: Request, f: Fresh, res: HandlerResult) returns (s: Submission)
    requires FreshIn(w, f) && Route(c, w.t, req, f, res).change.Enqueue?
    ensures s.req == req && s.f == f && Entered(c, w, AfterCall(c, w, req, f, res), s)
    ensures var v := AfterCall(c, w, req, f, res);
            && v.t.rows == Published(w.t.rows, c.queue, SubmissionBody(req, s.args, f), w.clock) && v.open == w.open
  {
    s := Submission(req, f, c.registry[req.tool].validate(req.arguments).value);
    InvokeTables(c, w.t, req, f, res, w.clock);
    WhatEnqueues(c, w.t, req, f, res);
    var v := AfterCall(c, w, req, f, res);
    assert v.t.rows[|w.t.rows|].body == SubmissionBody(req, s.args, f);
  }

  lemma ConcludeEnters(c: Deployment, w: World, j: string)
    requires OpenOk(c, w) && CanConclude(w, j)
    ensures Entered(c, w, AfterConclude(c, w, j), w.open[j])
  {
    assert SubmissionOk(c, w.t, j, w.open[j]);
  }

  lemma StepEnters(c: Deployment, w: World, s: Step) returns (sub: Submission)
    requires OpenOk(c, w) && Enqueues(c, w, s)
    ensures Entered(c, w, Apply(c, w, s), sub)
    ensures s.Conclude? ==> s.jobId in w.open && sub == w.open[s.jobId]
  {
    if s.Call? {
      sub := CallEnters(c, w, s.req, s.f, s.res);
    } else {
      sub := w.open[s.jobId];
      ConcludeEnters(c, w, s.jobId);
    }
  }

  // ---------------------------------------------------------------- the invariant

  lemma BodyStays(a: seq<Row>, b: seq<Row>, body: Body)
    requires HasBody(a, body) && |a| <= |b| && forall r :: 0 <= r < |a| ==> b[r].body == a[r].body
    ensures HasBody(b, body)
  {
    var r :| 0 <= r < |a| && a[r].body == body;
    assert b[r].body == body;
  }

  /** A step keeps the bodies of the rows. */
  lemma BodiesStay(c: Deployment, w: World, s: Step)
    requires QueueInv(c, w)
    ensures var v := Apply(c, w, s);
            |w.t.rows| <= |v.t.rows| && forall r :: 0 <= r < |w.t.rows| ==> v.t.rows[r].body == w.t.rows[r].body
  {
    if |w.t.rows| > 0 {
      StepOnRow(c, w, s, |w.t.rows| - 1);
    }
    forall r: nat | r < |w.t.rows|
      ensures r < |Apply(c, w, s).t.rows| && Apply(c, w, s).t.rows[r].body == w.t.rows[r].body
    {
      StepOnRow(c, w, s, r);
    }
  }

  lemma CommitKeepsJobIds(c: Deployment, t: Db, msg: Message, phase: Phase, now: int)
    ensures Commit(c, t, msg, phase, now).db.jobs.Keys == t.jobs.Keys
  {
  }

  /** A job appears only when its submission commits. */
  lemma JobsAppear(c: Deployment, w: World, s: Step, j: string)
    requires OpenOk(c, w) && j in w.open && j in Apply(c, w, s).t.jobs
    ensures j !in Apply(c, w, s).open
  {
    assert SubmissionOk(c, w.t, j, w.open[j]);
    if Enqueues(c, w, s) {
      var sub := StepEnters(c, w, s);
    } else if s.Work? && s.worker < |w.hands| && Busy(w.hands[s.worker]) {
      var h := w.hands[s.worker];
      CommitKeepsJobIds(c, w.t, h.batch[h.pos], h.phase, w.clock);
    } else if s.Call? {
      InvokeTables(c, w.t, s.req, s.f, s.res, w.clock);
    }
  }

  lemma SubmitOpens(c: Deployment, w: World, req: Request, f: Fresh)
    requires FreshIn(w, f) && Queueable(c, req)
    ensures var v := AfterSubmit(c, w, req, f);
            SubmissionOk(c, v.t, f.jobId, v.open[f.jobId])
  {
    var v := AfterSubmit(c, w, req, f);
    assert v.t.rows[|w.t.rows|].body == SubmissionBody(req, v.open[f.jobId].args, f);
  }

  lemma StepKeepsOpen(c: Deployment, w: World, s: Step)
    requires QueueInv(c, w) && OpenOk(c, w)
    ensures OpenOk(c, Apply(c, w, s))
  {
    var v := Apply(c, w, s);
    BodiesStay(c, w, s);
    forall j | j in v.open ensures SubmissionOk(c, v.t, j, v.open[j]) {
      if j in w.open {
        assert SubmissionOk(c, w.t, j, w.open[j]);
        OpenUnchanged(c, w, s, j);
        if j in v.t.jobs {
          JobsAppear(c, w, s, j);
        }
        BodyStays(w.t.rows, v.t.rows, SubmissionBody(w.open[j].req, w.open[j].args, w.open[j].f));
      } else {
        SubmitOpens(c, w, s.req, s.f);
      }
    }
  }

  lemma OpenUnchanged(c: Deployment, w: World, s: Step, j: string)
    requires j in w.open && j in Apply(c, w, s).open
    ensures Apply(c, w, s).open[j] == w.open[j]
  {
  }

  lemma {:induction false} RunKeepsOpen(c: Deployment, w: World, steps: seq<Step>)
    requires QueueInv(c, w) && OpenOk(c, w)
    ensures OpenOk(c, Run(c, w, steps))
    decreases |steps|
  {
    if steps != [] {
      StepKeepsQueue(c, w, steps[0]);
      StepKeepsOpen(c, w, steps[0]);
      RunKeepsOpen(c, Apply(c, w, steps[0]), steps[1..]);
    }
  }

  lemma OpenInvariant(c: Deployment, workers: nat, steps: seq<Step>)
    ensures OpenOk(c, Run(c, Init(workers), steps))
  {
    QueueInvariant(c, workers, []);
    RunKeepsOpen(c, Init(workers), steps);
  }
}
