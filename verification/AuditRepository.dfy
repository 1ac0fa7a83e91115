/** The only writer of audit and execution records (packages/audit/repository.py). */
module AuditRepository {
  import opened Values
  import opened Tables
  import opened LocalQueue

  class Repository {
    const db: Database

    constructor (db: Database)
      ensures this.db == db
    {
      this.db := db;
    }

    method RecordEvent(e: Event)
      modifies db`events
      ensures db.events == old(db.events) + [e]
    {
      db.events := db.events + [e];
    }

    method RecordToolCall(call: ToolCall)
      modifies db`calls
      ensures db.calls == old(db.calls) + [call]
    {
      db.calls := db.calls + [call];
    }

    method CreateJob(jobId: string, job: Job)
      modifies db`jobs
      ensures db.jobs == old(db.jobs)[jobId := job]
    {
      db.jobs := db.jobs[jobId := job];
    }

    method SetJobStatus(jobId: Option<string>, status: JobStatus, result: Option<Dict>, code: Option<string>,
                        detail: Option<string>, attempts: Option<nat>)
      modifies db`jobs
      ensures db.jobs == SetJob(old(db.jobs), jobId, status, result, code, detail, attempts)
    {
      if jobId.None? || jobId.value !in db.jobs {
        return;
      }
      var job := db.jobs[jobId.value];
      job := job.(status := status);
      if result.Some? {
        job := job.(result := result);
      }
      if code.Some? {
        job := job.(errorCode := code);
      }
      if detail.Some? {
        job := job.(errorDetail := detail);
      }
      if attempts.Some? {
        job := job.(attempts := attempts.value);
      }
      assert job == Patched(db.jobs[jobId.value], status, result, code, detail, attempts);
      db.jobs := db.jobs[jobId.value := job];
    }

    /** Fails with a conflict, changing nothing, when the key exists. */
    method ReserveIdempotency(key: string, tool: string, inputHash: string, jobId: string) returns (conflict: bool)
      modifies db`keys
      ensures conflict == (key in old(db.keys))
      ensures conflict ==> db.keys == old(db.keys)
      ensures !conflict ==> db.keys == old(db.keys)[key := KeyRow(tool, jobId, inputHash, false, None)]
    {
      conflict := key in db.keys;
      if !conflict {
        db.keys := db.keys[key := KeyRow(tool, jobId, inputHash, false, None)];
      }
    }

    method GetIdempotency(key: string) returns (row: Option<KeyRow>)
      ensures row == if key in db.keys then Some(db.keys[key]) else None
    {
      row := if key in db.keys then Some(db.keys[key]) else None;
    }

    method CompleteIdempotency(key: string, result: Dict)
      modifies db`keys
      ensures db.keys == CompleteKey(old(db.keys), key, result)
    {
      if key in db.keys {
        var row := db.keys[key].(completed := true);
        row := row.(result := Some(result));
        db.keys := db.keys[key := row];
      }
    }

    method CreateApproval(approvalId: string, approval: Approval)
      modifies db`approvals
      ensures db.approvals == old(db.approvals)[approvalId := approval]
    {
      db.approvals := db.approvals[approvalId := approval];
    }

    method GetApproval(approvalId: string) returns (approval: Option<Approval>)
      ensures approval == if approvalId in db.approvals then Some(db.approvals[approvalId]) else None
    {
      approval := if approvalId in db.approvals then Some(db.approvals[approvalId]) else None;
    }

    /** The assignments `approval.status = ...; approval.approved_by = ...` on a fetched record. */
    method SetApproval(approvalId: string, status: ApprovalStatus, approver: string)
      requires approvalId in db.approvals
      modifies db`approvals
      ensures var was := old(db.approvals);
              db.approvals == was[approvalId := was[approvalId].(status := status, approvedBy := Some(approver))]
    {
      var approval := db.approvals[approvalId].(status := status);
      approval := approval.(approvedBy := Some(approver));
      db.approvals := db.approvals[approvalId := approval];
    }
  }
}
