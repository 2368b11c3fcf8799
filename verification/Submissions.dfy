// GORMRepository.CreateAndEnqueue of internal/queryjob/repository.go: one
// transaction over query_jobs and outbox_events.
module Submissions {
  import opened Options
  import opened JobStatus
  import opened Messages
  import opened QueryJobs
  import Outbox

  // uq_ob_message_id and uq_ob_type_job (all events are of one type).
  ghost predicate UniqueEvents(t: Outbox.EventTable) {
    forall i, k :: i in t && k in t && (t[i].messageId == t[k].messageId || t[i].jobId == t[k].jobId) ==> i == k
  }

  class JobsAndOutbox {
    var jobs: JobTable
    var events: Outbox.EventTable
    var nextJob: JobId
    var nextEvent: Outbox.EventId

    ghost predicate Valid() reads this {
      && nextJob > 0 && UniqueEvents(events)
      && (forall j :: j in jobs ==> 0 < j < nextJob)
      && (forall i :: i in events ==> i < nextEvent && events[i].jobId < nextJob)
    }

    constructor ()
      ensures Valid() && jobs == map[] && events == map[]
    {
      jobs, events, nextJob, nextEvent := map[], map[], 1, 0;
    }

    // Either a queued job and its pending event appear together, or nothing changes: a
    // refused statement, a duplicate message id or a failing commit rolls everything back.
    // Identifiers are used up either way.
    method CreateAndEnqueue(owner: nat, event: Outbox.OutboxEvent, createFails: bool, updateFails: bool,
                            insertFails: bool, commitFails: bool)
      returns (j: JobId, ok: bool)
      requires Valid()
      modifies this
      ensures Valid()
      ensures ok <==> !createFails && !updateFails && !insertFails && !commitFails
                      && forall i :: i in old(events) ==> old(events)[i].messageId != event.messageId
      ensures j == old(nextJob) && j !in old(jobs)
      ensures ok ==> jobs == Transitioned(old(jobs)[j := PendingJob(owner)], j, Pending, Queued)
                     && events == old(events)[old(nextEvent) := event.(jobId := j)]
      ensures ok ==>
                && j in jobs && jobs[j].owner == Some(owner) && jobs[j].status == Queued && jobs[j].attemptCount == 0
                && jobs[j].errorCode == None && jobs[j].rowCount == None && jobs[j].finishedAt == None
                && jobs[j].resultExpiresAt == None && jobs[j].nextRetryAt == None
      ensures !ok ==> jobs == old(jobs) && events == old(events)
    {
      j, ok := nextJob, false;
      var rollbackJobs, rollbackEvents := jobs, events;
      nextJob := nextJob + 1;
      if createFails {
        return;
      }
      jobs := jobs[j := PendingJob(owner)];
      if updateFails || !Matches(jobs, j, Pending) {
        jobs := rollbackJobs;
        return;
      }
      jobs := jobs[j := jobs[j].(status := Queued)];
      var row := event.(jobId := j);
      if insertFails || exists i :: i in events && (events[i].messageId == row.messageId || events[i].jobId == j) {
        jobs := rollbackJobs;
        return;
      }
      events := events[nextEvent := row];
      nextEvent := nextEvent + 1;
      if commitFails {
        jobs, events := rollbackJobs, rollbackEvents;
        return;
      }
      ok := true;
    }
  }
}
