// internal/queryjob/model.go and repository.go: the query_jobs table.
module QueryJobs {
  import opened Options
  import opened JobStatus
  import opened Messages

  datatype ErrorCode =
    | UnsupportedQuestion | LlmFailed | SqlValidationFailed
    | QueryExecutionFailed | ResultTooLarge | MaxRetriesExceeded

  datatype Job = Job(
    status: Status,
    attemptCount: nat,
    nextRetryAt: Option<Time>,
    errorCode: Option<ErrorCode>,
    rowCount: Option<nat>,
    finishedAt: Option<Time>,
    resultExpiresAt: Option<Time>,
    owner: Option<nat>)

  type JobTable = map<JobId, Job>

  // WHERE id = ? AND status = ?
  predicate Matches(t: JobTable, j: JobId, from: Status) {
    j in t && t[j].status == from
  }

  function Transitioned(t: JobTable, j: JobId, from: Status, to: Status): JobTable {
    if Matches(t, j, from) then t[j := t[j].(status := to)] else t
  }

  // attempt_count is overwritten, not compared.
  function SetRetrying(t: JobTable, j: JobId, from: Status, attemptCount: nat, at: Time): JobTable {
    if Matches(t, j, from)
    then t[j := t[j].(status := Retrying, attemptCount := attemptCount, nextRetryAt := Some(at))]
    else t
  }

  function SetSucceeded(t: JobTable, j: JobId, from: Status, rowCount: nat, now: Time, expiresAt: Time): JobTable {
    if Matches(t, j, from)
    then t[j := t[j].(status := Succeeded, rowCount := Some(rowCount),
                      finishedAt := Some(now), resultExpiresAt := Some(expiresAt))]
    else t
  }

  function SetFailed(t: JobTable, j: JobId, from: Status, code: ErrorCode, now: Time): JobTable {
    if Matches(t, j, from)
    then t[j := t[j].(status := Failed, errorCode := Some(code), finishedAt := Some(now))]
    else t
  }

  function PendingJob(owner: nat): Job {
    Job(Pending, 0, None, None, None, None, None, Some(owner))
  }

  class JobRepository {
    var rows: JobTable

    constructor ()
      ensures rows == map[]
    {
      rows := map[];
    }

    method FindByID(j: JobId) returns (job: Option<Job>)
      ensures job == if j in rows then Some(rows[j]) else None
    {
      job := if j in rows then Some(rows[j]) else None;
    }

    // ok == false is ErrStatusConflict, in all four updates.
    method TransitionStatus(j: JobId, from: Status, to: Status) returns (ok: bool)
      modifies this
      ensures ok == Matches(old(rows), j, from)
      ensures ok <==> j in old(rows) && old(rows)[j].status == from
      ensures rows == Transitioned(old(rows), j, from, to)
      ensures rows == if ok then old(rows)[j := old(rows)[j].(status := to)] else old(rows)
    {
      ok := j in rows && rows[j].status == from;
      if ok {
        rows := rows[j := rows[j].(status := to)];
      }
    }

    method UpdateRetrying(j: JobId, from: Status, attemptCount: nat, at: Time) returns (ok: bool)
      modifies this
      ensures ok == Matches(old(rows), j, from)
      ensures ok <==> j in old(rows) && old(rows)[j].status == from
      ensures rows == SetRetrying(old(rows), j, from, attemptCount, at)
      ensures rows.Keys == old(rows).Keys && forall i :: i in rows && i != j ==> rows[i] == old(rows)[i]
      ensures ok ==> rows[j] == old(rows)[j].(status := Retrying, attemptCount := attemptCount, nextRetryAt := Some(at))
    {
      ok := j in rows && rows[j].status == from;
      if ok {
        rows := rows[j := rows[j].(status := Retrying, attemptCount := attemptCount, nextRetryAt := Some(at))];
      }
    }

    method UpdateSucceeded(j: JobId, from: Status, rowCount: nat, now: Time, expiresAt: Time) returns (ok: bool)
      modifies this
      ensures ok == Matches(old(rows), j, from)
      ensures ok <==> j in old(rows) && old(rows)[j].status == from
      ensures rows == SetSucceeded(old(rows), j, from, rowCount, now, expiresAt)
      ensures rows.Keys == old(rows).Keys && forall i :: i in rows && i != j ==> rows[i] == old(rows)[i]
      ensures ok ==> rows[j] == old(rows)[j].(status := Succeeded, rowCount := Some(rowCount), finishedAt := Some(now),
                                              resultExpiresAt := Some(expiresAt))
    {
      ok := j in rows && rows[j].status == from;
      if ok {
        rows := rows[j := rows[j].(status := Succeeded, rowCount := Some(rowCount),
                                   finishedAt := Some(now), resultExpiresAt := Some(expiresAt))];
      }
    }

    method UpdateFailed(j: JobId, from: Status, code: ErrorCode, now: Time) returns (ok: bool)
      modifies this
      ensures ok == Matches(old(rows), j, from)
      ensures ok <==> j in old(rows) && old(rows)[j].status == from
      ensures rows == SetFailed(old(rows), j, from, code, now)
      ensures rows.Keys == old(rows).Keys && forall i :: i in rows && i != j ==> rows[i] == old(rows)[i]
      ensures ok ==> rows[j] == old(rows)[j].(status := Failed, errorCode := Some(code), finishedAt := Some(now))
    {
      ok := j in rows && rows[j].status == from;
      if ok {
        rows := rows[j := rows[j].(status := Failed, errorCode := Some(code), finishedAt := Some(now))];
      }
    }
  }
}
