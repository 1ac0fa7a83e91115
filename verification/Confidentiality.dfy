/**
 * Where values of sensitive fields can end up: for tools that run in the gateway nowhere, over whole runs; for tools
 * that run in the worker in the job record, which stores the raw output.
 */
module Confidentiality {
  import opened Values
  import opened Redactor
  import opened Tables
  import opened Catalog
  import opened Gateway
  import opened Worker
  import opened Protocol

  function MaskingPolicy(c: Deployment, tool: string): Policy
    requires tool in c.registry
  {
    Policy(c.patterns, c.registry[tool].sensitiveFields, false)
  }

  // ---------------------------------------------------------------- the gateway

  /** For this caller the two outcomes differ in values of sensitive fields only. */
  ghost predicate Indistinct(c: Deployment, req: Request, a: HandlerResult, b: HandlerResult)
  {
    && a.Returned? && b.Returned? && a.resourceId == b.resourceId && a.proposedChange == b.proposedChange
    && req.tool in c.registry && req.principal.role !in c.registry[req.tool].rawPiiRoles
    && AgreeOutsideSensitive(MaskingPolicy(c, req.tool), Obj(a.output), Obj(b.output))
  }

  ghost predicate IndistinctSteps(c: Deployment, a: Step, b: Step)
  {
    a == b || (a.Call? && b.Call? && a.req == b.req && a.f == b.f && Indistinct(c, a.req, a.res, b.res))
  }

  /** The runs are the same but for what handlers returned to the gateway. */
  predicate SameRun(a: HandlerRun, b: HandlerRun)
  {
    a == b || (a.InGateway? && b.InGateway? && a.requestId == b.requestId && a.tool == b.tool && a.args == b.args)
  }

  /** The worlds are the same but for the outcomes that the history of runs notes, which no step reads. */
  predicate SameWorld(a: World, b: World)
  {
    && a.(runs := []) == b.(runs := [])
    && |a.runs| == |b.runs| && forall n :: 0 <= n < |a.runs| ==> SameRun(a.runs[n], b.runs[n])
  }

  /** A step goes the same way whatever the runs were, and adds the same run. */
  lemma RunsAreNotRead(c: Deployment, w: World, runs: seq<HandlerRun>, s: Step)
    ensures var u, v := Apply(c, w, s), Apply(c, w.(runs := runs), s);
            && v.(runs := []) == u.(runs := [])
            && exists more :: u.runs == w.runs + more && v.runs == runs + more
  {
    hide Route; hide Invoke; hide Commit; hide Received; hide Batch; hide Queueable;
    var u, v := Apply(c, w, s), Apply(c, w.(runs := runs), s);
    if |u.runs| == |w.runs| {
      assert u.runs == w.runs + [] && v.runs == runs + [];
    } else {
      assert u.runs == w.runs + [u.runs[|w.runs|]] && v.runs == runs + [u.runs[|w.runs|]];
    }
  }

  lemma StepNonInterference(c: Deployment, w: World, a: Step, b: Step)
    requires IndistinctSteps(c, a, b)
    ensures SameWorld(Apply(c, w, a), Apply(c, w, b))
  {
    if a != b {
      InvocationNonInterference(c, w.t, a.req, a.f, a.res, b.res, w.clock);
      hide Route; hide Invoke;
    }
  }

  lemma SameStep(c: Deployment, w: World, v: World, a: Step, b: Step)
    requires SameWorld(w, v) && IndistinctSteps(c, a, b)
    ensures SameWorld(Apply(c, w, a), Apply(c, v, b))
  {
    StepNonInterference(c, w, a, b);
    RunsAreNotRead(c, w, v.runs, b);
    assert v == w.(runs := v.runs);
    hide Apply; hide IndistinctSteps;
    var more :| Apply(c, w, b).runs == w.runs + more && Apply(c, v, b).runs == v.runs + more;
    forall n | 0 <= n < |Apply(c, w, a).runs| ensures SameRun(Apply(c, w, a).runs[n], Apply(c, v, b).runs[n]) {
      assert SameRun(Apply(c, w, a).runs[n], Apply(c, w, b).runs[n]);
      assert n < |w.runs| ==> SameRun(w.runs[n], v.runs[n]);
    }
  }

  /**
   * Two schedules whose gateway calls differ in the values of sensitive fields only lead to the same world: tables,
   * queue, everything clients ever saw, and everything workers do later. Only the record of what the handlers returned
   * tells them apart.
   */
  lemma {:induction false} RunNonInterference(c: Deployment, w: World, v: World, a: seq<Step>, b: seq<Step>)
    requires SameWorld(w, v)
    requires |a| == |b| && forall i :: 0 <= i < |a| ==> IndistinctSteps(c, a[i], b[i])
    ensures SameWorld(Run(c, w, a), Run(c, v, b))
    decreases |a|
  {
    if a != [] {
      SameStep(c, w, v, a[0], b[0]);
      RunNonInterference(c, Apply(c, w, a[0]), Apply(c, v, b[0]), a[1..], b[1..]);
    }
  }

  // ---------------------------------------------------------------- the worker

  /** The result that the worker stores in the job when the tool returns `output`. */
  function Stored(c: Deployment, t: Db, msg: Message, now: int, output: Dict): Option<Dict>
    requires msg.body.jobId.Some? && msg.body.jobId.value in t.jobs
  {
    var u := Finished(c.(handler := (row, attempt) => Returned(output, "", [])), t, msg, Guard, now);
    if msg.body.jobId.value in u.jobs then u.jobs[msg.body.jobId.value].result else None
  }

  /** The output is stored as it is. */
  lemma StoredIsRaw(c: Deployment, t: Db, msg: Message, now: int, output: Dict)
    requires msg.body.jobId.Some? && msg.body.jobId.value in t.jobs
    requires !KeyIsDone(t, msg.body) && msg.body.tool in c.registry
    ensures Stored(c, t, msg, now, output) == Some(output)
  {
    AttemptIsRecorded(c.(handler := (row, attempt) => Returned(output, "", [])), t, msg, now);
  }

  lemma NothingSensitiveMeansEqual(p: Policy, a: Dict, b: Dict)
    requires p.sensitive == {} && AgreeOutsideSensitive(p, Obj(a), Obj(b))
    ensures a == b
  {
    assert Leaves(Obj(a), None) == Leaves(Obj(b), None);
    ShapeAndLeavesDetermine(Obj(a), Obj(b), None);
  }

  lemma SensitiveValuesAgree(p: Policy, key: string, a: Json, b: Json)
    requires key in p.sensitive && !p.allowRaw && Scalar(a) && Scalar(b)
    ensures AgreeOutsideSensitive(p, Obj([Field(key, a)]), Obj([Field(key, b)]))
  {
    OneField(key, a);
    OneField(key, b);
  }

  lemma OneField(key: string, a: Json)
    requires Scalar(a)
    ensures Leaves(Obj([Field(key, a)]), None) == [Leaf(Some(key), a)]
    ensures Shape(Obj([Field(key, a)])) == Obj([Field(key, Null)])
  {
    var fields := [Field(key, a)];
    assert fields[..|fields| - 1] == [];
    assert FieldLeaves(fields) == FieldLeaves([]) + Leaves(a, Some(key));
    assert FieldShapes(fields) == FieldShapes([]) + [Field(key, Shape(a))];
  }

  /**
   * The job record, which clients may read, hides the values of a tool's sensitive fields if and only if the tool has
   * none: the worker does not redact.
   */
  lemma WorkerHidesIffNothingSensitive(c: Deployment, t: Db, msg: Message, now: int)
    requires msg.body.jobId.Some? && msg.body.jobId.value in t.jobs
    requires !KeyIsDone(t, msg.body) && msg.body.tool in c.registry
    ensures (forall a, b :: AgreeOutsideSensitive(MaskingPolicy(c, msg.body.tool), Obj(a), Obj(b)) ==>
               Stored(c, t, msg, now, a) == Stored(c, t, msg, now, b))
            <==> c.registry[msg.body.tool].sensitiveFields == {}
  {
    var p := MaskingPolicy(c, msg.body.tool);
    forall output ensures Stored(c, t, msg, now, output) == Some(output) {
      StoredIsRaw(c, t, msg, now, output);
    }
    hide Stored;
    if p.sensitive == {} {
      forall a, b | AgreeOutsideSensitive(p, Obj(a), Obj(b)) ensures a == b {
        NothingSensitiveMeansEqual(p, a, b);
      }
    } else {
      var key :| key in p.sensitive;
      SensitiveValuesAgree(p, key, Bool(true), Bool(false));
    }
  }
}
