// internal/queryjob/service.go: ResultService.GetResult over the job table and
// the result cache, and what an owner is promised.
module Results {
  import opened Options
  import opened JobStatus
  import opened Messages
  import opened QueryJobs
  import opened Delivery
  import opened DeliveryFrames
  import opened DeliverySafety
  import opened DeliveryTheorems
  import opened PoliteRuns

  datatype ServiceError =
    | JobNotFound | QueryJobFailed | ResultNotReady | ResultUnavailable
    | ResultExpired | ResultCorrupted | StoreUnavailable

  // What the cache answers.
  datatype CacheRead = Hit(rows: nat) | Miss | Corrupted | Broken

  datatype Outcome = Served(rows: nat) | Refused(error: ServiceError)

  function OwnsJob(job: Job, caller: nat): bool {
    job.owner == Some(caller)
  }

  // The cache forgets an entry at the end of its time to live.
  function ReadCache(store: map<JobId, CacheEntry>, j: JobId, at: Time): CacheRead {
    if j in store && at < store[j].liveUntil then Hit(store[j].rows) else Miss
  }

  function MapStoreError(read: CacheRead, expiresAt: Time, now: Time): ServiceError
    requires !read.Hit?
  {
    match read
    case Miss => if now < expiresAt then ResultUnavailable else ResultExpired
    case Corrupted => ServiceError.ResultCorrupted
    case Broken => StoreUnavailable
  }

  function GetResult(jobs: JobTable, read: CacheRead, caller: nat, j: JobId, now: Time): Outcome {
    if j !in jobs || !OwnsJob(jobs[j], caller) then Refused(JobNotFound)
    else if jobs[j].status == Failed then Refused(QueryJobFailed)
    else if !IsTerminal(jobs[j].status) then Refused(ResultNotReady)
    else if jobs[j].resultExpiresAt == None then Refused(ResultUnavailable)
    else if read.Hit? then Served(read.rows)
    else Refused(MapStoreError(read, jobs[j].resultExpiresAt.value, now))
  }

  // ---- who submitted a job -------------------------------------------------

  // User u submitted j somewhere on the way to s.
  ghost predicate SubmittedBy(c: Config, s: State, j: JobId, u: nat) {
    exists s0, m, ls ::
      Reachable(c, s0) && Enabled(s0, Submit(j, m, u)) && Run(c, Apply(c, s0, Submit(j, m, u)), ls, s)
  }

  lemma SwapKeepsOwner(c: Config, s: State, l: Label)
    requires Enabled(s, l) && SwapLabel(l) && s.handlers[l.h].msg.jobId in s.jobs
    ensures SwapOf(c, s, l).row.owner == s.jobs[s.handlers[l.h].msg.jobId].owner
  {
    hide NextAttempt;
  }

  lemma OwnerStep(c: Config, s: State, l: Label, j: JobId)
    requires Enabled(s, l) && j in s.jobs
    ensures j in Apply(c, s, l).jobs && Apply(c, s, l).jobs[j].owner == s.jobs[j].owner
  {
    hide Enabled, Apply, SwapOf, Working;
    RowWriter(c, s, l, j);
    if SwapLabel(l) && Apply(c, s, l).jobs[j] != s.jobs[j] {
      SwapRow(c, s, l, j);
      SwapKeepsOwner(c, s, l);
    }
  }

  lemma {:induction false} OwnerStays(c: Config, s: State, ls: seq<Label>, s': State, j: JobId)
    requires Run(c, s, ls, s') && j in s.jobs
    ensures j in s'.jobs && s'.jobs[j].owner == s.jobs[j].owner
    decreases |ls|
  {
    hide Enabled, Apply;
    if ls != [] {
      OwnerStep(c, s, ls[0], j);
      OwnerStays(c, Apply(c, s, ls[0]), ls[1..], s', j);
    }
  }

  lemma SubmitWrites(c: Config, s: State, j: JobId, m: MessageId, u: nat)
    requires Enabled(s, Submit(j, m, u))
    ensures j in Apply(c, s, Submit(j, m, u)).jobs && Apply(c, s, Submit(j, m, u)).jobs[j].owner == Some(u)
  {
  }

  lemma RunThen(c: Config, s: State, l: Label, ls: seq<Label>, s': State)
    requires Reachable(c, s) && Enabled(s, l) && Run(c, Apply(c, s, l), ls, s')
    ensures Reachable(c, s')
  {
    hide Enabled, Apply;
    var before :| Run(c, Init(), before, s);
    assert ([l] + ls)[1..] == ls;
    assert Run(c, s, [l] + ls, s');
    RunConcat(c, Init(), before, s, [l] + ls, s');
  }

  // The submitter owns the job in every later state, and nobody else does.
  lemma SubmitterOwns(c: Config, s: State, j: JobId, u: nat, caller: nat)
    requires SubmittedBy(c, s, j, u)
    ensures Reachable(c, s) && j in s.jobs && (OwnsJob(s.jobs[j], caller) <==> caller == u)
  {
    hide Enabled, Apply, Reachable, Run;
    var s0, m, ls :| Reachable(c, s0) && Enabled(s0, Submit(j, m, u)) && Run(c, Apply(c, s0, Submit(j, m, u)), ls, s);
    SubmitWrites(c, s0, j, m, u);
    RunThen(c, s0, Submit(j, m, u), ls, s);
    OwnerStays(c, Apply(c, s0, Submit(j, m, u)), ls, s, j);
  }

  lemma OnlySubmitAdds(c: Config, s: State, l: Label, j: JobId)
    requires Enabled(s, l) && j !in s.jobs && j in Apply(c, s, l).jobs
    ensures l.Submit? && l.j == j
  {
    hide SameQueue, SameCache;
    if !l.Submit? {
      hide Apply, Enabled;
      StepFrame(c, s, l);
      if SwapLabel(l) {
        SwapJobs(c, s, l);
      }
    }
  }

  lemma {:induction false} SubmittedOnTheWay(c: Config, s0: State, ls: seq<Label>, s: State, j: JobId)
    requires Reachable(c, s0) && Run(c, s0, ls, s) && j !in s0.jobs && j in s.jobs
    ensures exists u :: SubmittedBy(c, s, j, u)
    decreases |ls|
  {
    hide Enabled, Apply, Reachable;
    var t := Apply(c, s0, ls[0]);
    if j in t.jobs {
      OnlySubmitAdds(c, s0, ls[0], j);
      var l := ls[0];
      assert l == Submit(j, l.m, l.owner);
      assert SubmittedBy(c, s, j, l.owner);
    } else {
      assert Run(c, t, [], t);
      RunThen(c, s0, ls[0], [], t);
      SubmittedOnTheWay(c, t, ls[1..], s, j);
    }
  }

  // Every job of a reachable state was submitted by somebody.
  lemma EveryJobWasSubmitted(c: Config, s: State, j: JobId)
    requires Reachable(c, s) && j in s.jobs
    ensures exists u :: SubmittedBy(c, s, j, u)
  {
    hide Enabled, Apply, Run;
    var ls :| Run(c, Init(), ls, s);
    assert Run(c, Init(), [], Init()) by { NoSteps(c, Init()); }
    SubmittedOnTheWay(c, Init(), ls, s, j);
  }

  lemma NoSteps(c: Config, s: State)
    ensures Run(c, s, [], s)
  {
  }

  // ---- what an answer means ------------------------------------------------

  // In every reachable state the answer tells what happened to the job in the run: a caller
  // who did not submit it learns nothing, an error code stands for a failure, no finish time
  // for a job still under way, a row count for a success whose result was cached after all
  // stages, and what becomes of that result depends on its age and the cache alone.
  lemma OutcomeTellsTheRun(c: Config, s: State, u: nat, caller: nat, j: JobId, read: CacheRead, readAt: Time, now: Time)
    requires c.maxRetries <= MAX_SANE_ATTEMPT && SubmittedBy(c, s, j, u) && readAt <= now
    requires read == ReadCache(s.store, j, readAt) || read == Corrupted || read == Broken
    ensures j in s.jobs
    ensures var r, own := GetResult(s.jobs, read, caller, j, now), caller == u;
            && (r == Refused(JobNotFound) <==> !own)
            && (r == Refused(QueryJobFailed) <==> own && s.jobs[j].errorCode.Some?)
            && (r == Refused(ResultNotReady) <==> own && s.jobs[j].finishedAt == None)
            && (r == Refused(ServiceError.ResultCorrupted) <==> own && s.jobs[j].rowCount.Some? && read == Corrupted)
            && (r == Refused(StoreUnavailable) <==> own && s.jobs[j].rowCount.Some? && read == Broken)
            && (r == Refused(ResultExpired) <==>
                  own && s.jobs[j].rowCount.Some? && read == Miss
                  && s.jobs[j].finishedAt.Some? && s.jobs[j].finishedAt.value + c.resultTTL <= now)
            && (r == Refused(ResultUnavailable) <==>
                  own && s.jobs[j].rowCount.Some? && read == Miss
                  && s.jobs[j].finishedAt.Some? && now < s.jobs[j].finishedAt.value + c.resultTTL)
            && (r == Refused(ResultUnavailable) ==> j in s.log.evicted)
            && (r.Served? ==> own && j in s.log.cached && WentThrough(s, j))
  {
    hide Reachable, SubmittedBy, Inv, PathOk, WentThrough;
    SubmitterOwns(c, s, j, u, caller);
    ReachableInv(c, s);
    InvRow(c, s, j);
    SucceededWentThrough(c, s, j);
  }

  // Until the recorded expiry the submitter of a succeeded job, and only the submitter, is
  // served, unless the cache evicted the entry.
  lemma OwnerIsServed(c: Config, s: State, u: nat, caller: nat, j: JobId, readAt: Time, now: Time)
    requires c.maxRetries <= MAX_SANE_ATTEMPT && SubmittedBy(c, s, j, u)
    requires j in s.jobs && s.jobs[j].status == Succeeded && j !in s.log.evicted
    requires s.jobs[j].resultExpiresAt.Some? && readAt < s.jobs[j].resultExpiresAt.value
    ensures j in s.store
    ensures GetResult(s.jobs, ReadCache(s.store, j, readAt), caller, j, now)
              == if caller == u then Served(s.store[j].rows) else Refused(JobNotFound)
  {
    hide Reachable, SubmittedBy, Inv, PathOk;
    SubmitterOwns(c, s, j, u, caller);
    ReachableInv(c, s);
    InvRow(c, s, j);
  }

  // While the cache answers, RESULT_UNAVAILABLE is seen exactly by the owner of a succeeded
  // job whose entry is gone before its recorded expiry, and then it was evicted.
  lemma UnavailableMeansEvicted(c: Config, s: State, caller: nat, j: JobId, readAt: Time, now: Time)
    requires c.maxRetries <= MAX_SANE_ATTEMPT && Reachable(c, s) && readAt <= now
    ensures GetResult(s.jobs, ReadCache(s.store, j, readAt), caller, j, now) == Refused(ResultUnavailable) <==>
              j in s.jobs && OwnsJob(s.jobs[j], caller) && s.jobs[j].status == Succeeded
              && (j !in s.store || s.store[j].liveUntil <= readAt)
              && s.jobs[j].resultExpiresAt.Some? && now < s.jobs[j].resultExpiresAt.value
    ensures GetResult(s.jobs, ReadCache(s.store, j, readAt), caller, j, now) == Refused(ResultUnavailable) ==>
              j in s.log.evicted
  {
    hide Reachable, Inv, PathOk;
    ReachableInv(c, s);
    if j in s.jobs {
      InvRow(c, s, j);
    }
  }

  // Where no worker outlives its lease, what is served is what was recorded.
  lemma ServedIsRecorded(c: Config, s: State, caller: nat, j: JobId, readAt: Time, now: Time)
    requires c.maxRetries <= MAX_SANE_ATTEMPT && PolitelyReachable(c, s) && j !in s.log.evicted
    requires GetResult(s.jobs, ReadCache(s.store, j, readAt), caller, j, now).Served?
    ensures j in s.jobs && s.jobs[j].rowCount ==
              Some(GetResult(s.jobs, ReadCache(s.store, j, readAt), caller, j, now).rows)
  {
    hide PolitelyReachable;
    CacheIsRecorded(c, s, j);
  }
}
