// What a worker that is left alone does with a delivery: for each situation the
// delivery can meet, a run that settles it. No such run is ruled out by the code.
module Progress {
  import opened Options
  import opened JobStatus
  import opened Messages
  import opened QueryJobs
  import opened Delivery
  import opened DeliveryFrames
  import opened DeliverySafety
  import opened DeliveryTheorems
  import opened Consumers
  import Pm = Idempotency

  // h keeps its delivery, and the queues are as they were.
  predicate Undisturbed(s: State, s': State, h: HandlerId) {
    SameDelivery(s, s', h) && s'.inFlight == s.inFlight && s'.nextSeq == s.nextSeq && s'.ids == s.ids
  }

  // The delivery of h is its own to acknowledge.
  predicate Owns(s: State, h: HandlerId) {
    && h in s.handlers && s.handlers[h].tag in s.inFlight
    && s.inFlight[s.handlers[h].tag].place == Unacked(h)
  }

  // The delivery is acknowledged: gone, and nothing else left the queues.
  predicate Gone(s: State, s': State, h: HandlerId)
    requires h in s.handlers
  {
    h !in s'.handlers && s'.inFlight == s.inFlight - {s.handlers[h].tag}
  }

  // ---- single steps --------------------------------------------------------

  lemma LoadFacts(c: Config, s: State, h: HandlerId)
    requires At(s, h, Loading) && s.handlers[h].msg.jobId in s.jobs
    ensures Enabled(s, Load(h))
    ensures var s', x, r := Apply(c, s, Load(h)), s.handlers[h], s.jobs[s.handlers[h].msg.jobId];
            && Undisturbed(s, s', h) && s'.jobs == s.jobs && s'.pm == s.pm && s'.clock == s.clock
            && (IsTerminal(r.status) ==> s'.handlers[h].pc == Completing(WasTerminal))
            && (r.status == Queued ==> s'.handlers[h].pc == Entering(Queued))
            && (r.status == Retrying && r.attemptCount == x.attempt ==> s'.handlers[h].pc == Entering(Retrying))
            && (r.status == Retrying && r.attemptCount != x.attempt ==> s'.handlers[h].pc == Completing(StaleAttempt))
            && (IsStage(r.status) ==> s'.handlers[h].pc == Rescheduling(r.status))
  {
  }

  lemma CasFacts(c: Config, s: State, l: Label)
    requires Enabled(s, l) && SwapLabel(l) && l.h in s.handlers && s.handlers[l.h].msg.jobId in s.jobs
    ensures Cas(s, Apply(c, s, l), l.h, SwapOf(c, s, l)) && Undisturbed(s, Apply(c, s, l), l.h)
    ensures Apply(c, s, l).clock == s.clock
  {
    hide Apply, Enabled, SwapOf, SameCache, Cas;
    SwapStep(c, s, l);
    SwapFrame(c, s, l);
    SwapShape(c, s, l);
    CasDelivery(s, Apply(c, s, l), l.h, SwapOf(c, s, l));
    CasClock(c, s, l);
  }

  lemma CasDelivery(s: State, s': State, h: HandlerId, w: Swap)
    requires Cas(s, s', h, w)
    ensures SameDelivery(s, s', h)
  {
  }

  lemma CasClock(c: Config, s: State, l: Label)
    requires Enabled(s, l) && SwapLabel(l)
    ensures Apply(c, s, l).clock == s.clock
  {
    hide Apply, SwapOf, Swapped, Enabled, Working, Go;
    ApplySwap(c, s, l);
    SwapShape(c, s, l);
    var j := s.handlers[l.h].msg.jobId;
    if j in s.jobs {
      var w := SwapOf(c, s, l);
      SwappedClock(s, l.h, w.from, if s.jobs[j].status == w.from then s.jobs[j := w.row] else s.jobs, w.row.status, w.pc);
    } else {
      SwappedClock(s, l.h, Failed, s.jobs, Failed, Aborted);
    }
  }

  lemma SwappedClock(s: State, h: HandlerId, from: Status, after: JobTable, to: Status, pc: Pc)
    requires h in s.handlers
    ensures Swapped(s, h, from, after, to, pc).clock == s.clock && Go(s, h, pc).clock == s.clock
  {
  }

  lemma MarkFacts(c: Config, s: State, h: HandlerId, now: Time)
    requires h in s.handlers
    ensures s.handlers[h].pc.Completing? ==> Enabled(s, MarkDone(h, now)) && Undisturbed(s, Apply(c, s, MarkDone(h, now)), h)
    ensures s.handlers[h].pc == MarkingRetry ==> Enabled(s, MarkRetry(h)) && Undisturbed(s, Apply(c, s, MarkRetry(h)), h)
  {
    hide Pm.MarkedCompleted, Pm.MarkedRetry, Pm.Holds, Pm.HoldsProcessing;
  }

  lemma AckFacts(c: Config, s: State, h: HandlerId)
    requires Owns(s, h) && s.handlers[h].pc.Acking?
    ensures Enabled(s, Ack(h))
    ensures var s' := Apply(c, s, Ack(h));
            Gone(s, s', h) && s'.jobs == s.jobs && s'.pm == s.pm && s'.ids == s.ids
  {
  }

  // ---- runs of given labels ------------------------------------------------

  lemma Run1(c: Config, s: State, l: Label, ls: seq<Label>, s': State)
    requires Enabled(s, l) && Run(c, Apply(c, s, l), ls, s')
    ensures Run(c, s, [l] + ls, s')
  {
    hide Enabled, Apply;
    assert ([l] + ls)[1..] == ls;
  }

  lemma Run0(c: Config, s: State)
    ensures Run(c, s, [], s)
  {
    hide Enabled, Apply;
  }

  // Marked complete and acknowledged: the common end of every settled delivery.
  lemma CompleteAndAck(c: Config, s: State, h: HandlerId, now: Time) returns (s': State)
    requires h in s.handlers && s.handlers[h].pc.Completing? && Owns(s, h)
    requires Pm.Holds(s.pm, s.handlers[h].msg.messageId, s.handlers[h].token)
    ensures Run(c, s, [MarkDone(h, now)] + ([Ack(h)] + []), s')
    ensures Gone(s, s', h) && s'.jobs == s.jobs && s'.ids == s.ids
    ensures s'.pm == s.pm[s.handlers[h].msg.messageId := s.pm[s.handlers[h].msg.messageId].(
                            status := Pm.Completed, completedAt := Some(now))]
  {
    hide Enabled, Apply, Run;
    MarkStep(c, s, h, now);
    MarkFacts(c, s, h, now);
    var t := Apply(c, s, MarkDone(h, now));
    AckFacts(c, t, h);
    s' := Apply(c, t, Ack(h));
    Run0(c, s');
    Run1(c, t, Ack(h), [], s');
    Run1(c, s, MarkDone(h, now), [Ack(h)] + [], s');
  }

  // ---- a delivery of a finished job ----------------------------------------

  // Whoever redelivers a job that is terminal already: loading, completing and acknowledging
  // is a run, after which the message is gone, the idempotency row completed and the job
  // as it was.
  lemma FinishedIsAcknowledged(c: Config, s: State, h: HandlerId, now: Time) returns (s': State)
    requires c.maxRetries <= MAX_SANE_ATTEMPT && Reachable(c, s) && At(s, h, Loading) && Owns(s, h)
    requires Pm.Holds(s.pm, s.handlers[h].msg.messageId, s.handlers[h].token) && Terminal(s, s.handlers[h].msg.jobId)
    ensures Run(c, s, [Load(h)] + ([MarkDone(h, now)] + ([Ack(h)] + [])), s')
    ensures Gone(s, s', h) && s'.jobs == s.jobs && PmDone(s', s.handlers[h].msg.jobId)
  {
    hide Reachable, Enabled, Apply, Run, Inv;
    ReachableInv(c, s);
    HandlerMessage(c, s, h);
    LoadFacts(c, s, h);
    var t := Apply(c, s, Load(h));
    s' := CompleteAndAck(c, t, h, now);
    Run1(c, s, Load(h), [MarkDone(h, now)] + ([Ack(h)] + []), s');
  }

  // ---- duplicates and held leases ------------------------------------------

  // A delivery of a job whose row is completed is acknowledged and changes nothing.
  lemma DuplicateIsAcknowledged(c: Config, s: State, h: HandlerId, now: Time) returns (s': State)
    requires c.maxRetries <= MAX_SANE_ATTEMPT && Reachable(c, s) && At(s, h, Received) && Owns(s, h) && now <= s.clock
    requires PmDone(s, s.handlers[h].msg.jobId)
    ensures Run(c, s, [Claim(h, now)] + ([Ack(h)] + []), s')
    ensures Gone(s, s', h) && s'.jobs == s.jobs && s'.pm == s.pm
  {
    hide Reachable, Inv, Tokens, Ids, PmRows;
    ReachableInv(c, s);
    InvTables(c, s);
    HandlerMessage(c, s, h);
    ClaimVerdict(c, s, s.handlers[h].msg);
    ClaimStep(c, s, h, now);
    ClaimQueue(c, s, h, now);
    hide Enabled, Apply, Run, Pm.Verdict, ValidEnvelope, PmDone;
    var t := Apply(c, s, Claim(h, now));
    AckFacts(c, t, h);
    s' := Apply(c, t, Ack(h));
    Run0(c, s');
    Run1(c, t, Ack(h), [], s');
    Run1(c, s, Claim(h, now), [Ack(h)] + [], s');
  }

  lemma ClaimQueue(c: Config, s: State, h: HandlerId, now: Time)
    requires At(s, h, Received) && now <= s.clock
    ensures Apply(c, s, Claim(h, now)).inFlight == s.inFlight && Apply(c, s, Claim(h, now)).nextSeq == s.nextSeq
    ensures Apply(c, s, Claim(h, now)).ids == s.ids
  {
    hide Pm.Claimed, Pm.Verdict, ValidEnvelope, WrapUint8, AfterVerdict;
  }

  lemma DeferFacts(c: Config, s: State, h: HandlerId)
    requires At(s, h, Deferring) && s.nextSeq !in s.inFlight
    ensures Enabled(s, Defer(h, Confirmed))
    ensures var s' := Apply(c, s, Defer(h, Confirmed));
            && s'.jobs == s.jobs && s'.pm == s.pm && SameDelivery(s, s', h) && s'.handlers[h].pc == Acking(true)
            && s'.inFlight == s.inFlight[s.nextSeq := Envelope(CopyOf(s.handlers[h]), RetryQueue)]
  {
    hide WorkerMessage;
  }

  // A delivery of a job whose lease another worker holds is replaced by a copy with the
  // same attempt in the retry queue, and changes nothing else.
  lemma HeldIsDeferred(c: Config, s: State, h: HandlerId, now: Time) returns (s': State)
    requires c.maxRetries <= MAX_SANE_ATTEMPT && Reachable(c, s) && At(s, h, Received) && Owns(s, h) && now <= s.clock
    requires var m := s.handlers[h].msg.messageId;
             m in s.pm && s.pm[m].status == Pm.Processing && s.clock < s.pm[m].expiresAt
    ensures Run(c, s, [Claim(h, now)] + ([Defer(h, Confirmed)] + ([Ack(h)] + [])), s')
    ensures h !in s'.handlers && s'.jobs == s.jobs && s'.pm == s.pm && ExtractAttempt(s.handlers[h].msg.attempt).Some?
    ensures var m := s.handlers[h].msg;
            s'.inFlight == s.inFlight[s.nextSeq := Envelope(
                              WorkerMessage(m.jobId, m.messageId, ExtractAttempt(m.attempt).value), RetryQueue)]
                           - {s.handlers[h].tag}
  {
    hide Reachable, Inv, Tokens, Ids, PmRows, ExtractAttempt;
    ReachableInv(c, s);
    InvTables(c, s);
    HandlerMessage(c, s, h);
    HandlerIdentity(c, s, h);
    FreshNumber(c, s);
    ClaimStep(c, s, h, now);
    ClaimQueue(c, s, h, now);
    assert Pm.Verdict(s.pm, s.handlers[h].msg.messageId, s.handlers[h].msg.kind, s.handlers[h].msg.jobId, s.clock) == Pm.LeaseHeld;
    hide Enabled, Apply, Run, Pm.Verdict, ValidEnvelope;
    var t := Apply(c, s, Claim(h, now));
    DeferFacts(c, t, h);
    var u := Apply(c, t, Defer(h, Confirmed));
    AckFacts(c, u, h);
    s' := Apply(c, u, Ack(h));
    Run0(c, s');
    Run1(c, u, Ack(h), [], s');
    Run1(c, t, Defer(h, Confirmed), [Ack(h)] + [], s');
    Run1(c, s, Claim(h, now), [Defer(h, Confirmed)] + ([Ack(h)] + []), s');
  }

  lemma FreshNumber(c: Config, s: State)
    requires Inv(c, s)
    ensures s.nextSeq !in s.inFlight
  {
    hide HandlerOk, Ids, PmRows, Tokens, Jobs, Cache, PublishedOk, Carried, PmDone;
  }

  // ---- a job waiting for this delivery -------------------------------------

  // The row carries on in the pipeline.
  predicate InStage(s: State, s': State, h: HandlerId, at: Status) {
    && Undisturbed(s, s', h) && s'.handlers[h].pc == Stage(at) && s'.pm == s.pm && s'.clock == s.clock
    && s.handlers[h].msg.jobId in s.jobs
    && s'.jobs == s.jobs[s.handlers[h].msg.jobId := s.jobs[s.handlers[h].msg.jobId].(status := at)]
  }

  lemma EnterFacts(c: Config, s: State, h: HandlerId)
    requires h in s.handlers && s.handlers[h].msg.jobId in s.jobs
    requires s.handlers[h].pc == Entering(s.jobs[s.handlers[h].msg.jobId].status)
    ensures Enabled(s, Enter(h)) && InStage(s, Apply(c, s, Enter(h)), h, Generating)
  {
    TransitionSwap(c, s, h, s.jobs[s.handlers[h].msg.jobId].status, Generating);
    hide Apply, Enabled, SwapOf;
    CasFacts(c, s, Enter(h));
  }

  lemma AdvanceFacts(c: Config, s: State, h: HandlerId, from: Status)
    requires h in s.handlers && s.handlers[h].msg.jobId in s.jobs && s.handlers[h].pc == Stage(from)
    requires s.jobs[s.handlers[h].msg.jobId].status == from && (from == Generating || from == Status.Validating)
    ensures Enabled(s, Advance(h)) && InStage(s, Apply(c, s, Advance(h)), h, NextStage(from))
  {
    TransitionSwap(c, s, h, from, NextStage(from));
    hide Apply, Enabled, SwapOf;
    CasFacts(c, s, Advance(h));
  }

  lemma StoreFacts(c: Config, s: State, h: HandlerId, rows: nat, now: Time)
    requires At(s, h, Stage(Executing)) && now <= s.clock
    ensures Enabled(s, StoreResult(h, rows, now, Confirmed))
    ensures var s' := Apply(c, s, StoreResult(h, rows, now, Confirmed));
            && Undisturbed(s, s', h) && s'.jobs == s.jobs && s'.pm == s.pm && s'.handlers[h].pc == Stored(rows, now)
  {
  }

  lemma SucceedFacts(c: Config, s: State, h: HandlerId)
    requires h in s.handlers && s.handlers[h].msg.jobId in s.jobs && s.handlers[h].pc.Stored?
    requires s.jobs[s.handlers[h].msg.jobId].status == Executing
    ensures Enabled(s, Succeed(h))
    ensures var s', j := Apply(c, s, Succeed(h)), s.handlers[h].msg.jobId;
            && Undisturbed(s, s', h) && s'.pm == s.pm && s'.handlers[h].pc == Completing(Finished)
            && j in s'.jobs && s'.jobs[j].status == Succeeded && s'.jobs[j].rowCount == Some(s.handlers[h].pc.rows)
            && s'.jobs[j].resultExpiresAt == Some(s.handlers[h].pc.now + c.resultTTL)
  {
    SucceedSwap(c, s, h);
    hide Apply, Enabled, SwapOf;
    CasFacts(c, s, Succeed(h));
  }

  lemma LoadAndEnter(c: Config, s: State, h: HandlerId) returns (s': State)
    requires At(s, h, Loading) && s.handlers[h].msg.jobId in s.jobs
    requires var r := s.jobs[s.handlers[h].msg.jobId];
             r.status == Queued || (r.status == Retrying && r.attemptCount == s.handlers[h].attempt)
    ensures forall ls, u :: Run(c, s', ls, u) ==> Run(c, s, [Load(h)] + ([Enter(h)] + ls), u)
    ensures InStage(s, s', h, Generating)
  {
    hide Enabled, Apply, Run;
    LoadFacts(c, s, h);
    var t := Apply(c, s, Load(h));
    EnterFacts(c, t, h);
    s' := Apply(c, t, Enter(h));
    forall ls, u | Run(c, s', ls, u) ensures Run(c, s, [Load(h)] + ([Enter(h)] + ls), u) {
      Run1(c, t, Enter(h), ls, u);
      Run1(c, s, Load(h), [Enter(h)] + ls, u);
    }
  }

  lemma ThroughStages(c: Config, s: State, h: HandlerId) returns (s': State)
    requires h in s.handlers && s.handlers[h].msg.jobId in s.jobs && s.handlers[h].pc == Stage(Generating)
    requires s.jobs[s.handlers[h].msg.jobId].status == Generating
    ensures forall ls, u :: Run(c, s', ls, u) ==> Run(c, s, [Advance(h)] + ([Advance(h)] + ls), u)
    ensures InStage(s, s', h, Executing)
  {
    hide Enabled, Apply, Run;
    AdvanceFacts(c, s, h, Generating);
    var t := Apply(c, s, Advance(h));
    AdvanceFacts(c, t, h, Status.Validating);
    s' := Apply(c, t, Advance(h));
    forall ls, u | Run(c, s', ls, u) ensures Run(c, s, [Advance(h)] + ([Advance(h)] + ls), u) {
      Run1(c, t, Advance(h), ls, u);
      Run1(c, s, Advance(h), [Advance(h)] + ls, u);
    }
  }

  lemma StoreAndFinish(c: Config, s: State, h: HandlerId, rows: nat, now: Time, done: Time) returns (s': State)
    requires At(s, h, Stage(Executing)) && Owns(s, h) && s.handlers[h].msg.jobId in s.jobs && now <= s.clock
    requires s.jobs[s.handlers[h].msg.jobId].status == Executing
    requires Pm.Holds(s.pm, s.handlers[h].msg.messageId, s.handlers[h].token)
    ensures Run(c, s, [StoreResult(h, rows, now, Confirmed)] + ([Succeed(h)] + ([MarkDone(h, done)] + ([Ack(h)] + []))), s')
    ensures var j, m := s.handlers[h].msg.jobId, s.handlers[h].msg.messageId;
            && Gone(s, s', h) && j in s'.jobs && s'.jobs[j].status == Succeeded && s'.jobs[j].rowCount == Some(rows)
            && s'.jobs[j].resultExpiresAt == Some(now + c.resultTTL)
            && m in s'.pm && s'.pm[m].status == Pm.Completed
  {
    hide Enabled, Apply, Run;
    StoreFacts(c, s, h, rows, now);
    var t := Apply(c, s, StoreResult(h, rows, now, Confirmed));
    SucceedFacts(c, t, h);
    var u := Apply(c, t, Succeed(h));
    s' := CompleteAndAck(c, u, h, done);
    Run1(c, t, Succeed(h), [MarkDone(h, done)] + ([Ack(h)] + []), s');
    Run1(c, s, StoreResult(h, rows, now, Confirmed), [Succeed(h)] + ([MarkDone(h, done)] + ([Ack(h)] + [])), s');
  }

  // The labels of a delivery that goes through at the first try.
  function WholePipeline(h: HandlerId, rows: nat, now: Time, done: Time): seq<Label> {
    [Load(h)] + ([Enter(h)] + ([Advance(h)] + ([Advance(h)]
    + ([StoreResult(h, rows, now, Confirmed)] + ([Succeed(h)] + ([MarkDone(h, done)] + ([Ack(h)] + [])))))))
  }

  // A queued job, or one waiting for exactly this attempt, can be brought to success by its
  // lease holder in eight steps, with whatever row count execution yields.
  lemma WaitingJobSucceeds(c: Config, s: State, h: HandlerId, rows: nat, now: Time, done: Time) returns (s': State)
    requires At(s, h, Loading) && Owns(s, h) && s.handlers[h].msg.jobId in s.jobs && now <= s.clock
    requires Pm.Holds(s.pm, s.handlers[h].msg.messageId, s.handlers[h].token)
    requires var r := s.jobs[s.handlers[h].msg.jobId];
             r.status == Queued || (r.status == Retrying && r.attemptCount == s.handlers[h].attempt)
    ensures Run(c, s, WholePipeline(h, rows, now, done), s')
    ensures var j, m := s.handlers[h].msg.jobId, s.handlers[h].msg.messageId;
            && Gone(s, s', h) && j in s'.jobs && s'.jobs[j].status == Succeeded && s'.jobs[j].rowCount == Some(rows)
            && s'.jobs[j].resultExpiresAt == Some(now + c.resultTTL)
            && m in s'.pm && s'.pm[m].status == Pm.Completed
  {
    hide Run;
    var t := LoadAndEnter(c, s, h);
    var u := ThroughStages(c, t, h);
    s' := StoreAndFinish(c, u, h, rows, now, done);
    var ls := [StoreResult(h, rows, now, Confirmed)] + ([Succeed(h)] + ([MarkDone(h, done)] + ([Ack(h)] + [])));
    assert Run(c, t, [Advance(h)] + ([Advance(h)] + ls), s');
    assert Run(c, s, [Load(h)] + ([Enter(h)] + ([Advance(h)] + ([Advance(h)] + ls))), s');
  }

  // ---- a job stuck in a stage ----------------------------------------------

  lemma SendFacts(c: Config, s: State, h: HandlerId)
    requires h in s.handlers && s.handlers[h].pc.Rescheduling? && s.nextSeq !in s.inFlight
    requires c.maxRetries <= MAX_SANE_ATTEMPT
    ensures Enabled(s, SendNext(h, Confirmed))
    ensures var s', x := Apply(c, s, SendNext(h, Confirmed)), s.handlers[h];
            && SameDelivery(s, s', h) && s'.jobs == s.jobs && s'.pm == s.pm && s'.ids == s.ids
            && (if x.attempt + 1 <= c.maxRetries
                then && s'.handlers[h].pc == RetrySent(x.pc.from)
                     && s'.inFlight == s.inFlight[s.nextSeq :=
                          Envelope(WorkerMessage(x.msg.jobId, x.msg.messageId, x.attempt + 1), RetryQueue)]
                else && s'.handlers[h].pc == DlqSent(x.pc.from) && s'.inFlight == s.inFlight
                     && WorkerMessage(x.msg.jobId, x.msg.messageId, x.attempt) in s'.dlq)
  {
    hide WorkerMessage;
    if s.handlers[h].attempt + 1 <= c.maxRetries {
      NextAttemptExact(c, s.handlers[h].attempt);
      hide NextAttempt;
    }
  }

  lemma RecordFacts(c: Config, s: State, h: HandlerId, at: Time)
    requires h in s.handlers && s.handlers[h].msg.jobId in s.jobs
    requires s.handlers[h].pc.RetrySent? || s.handlers[h].pc.DlqSent?
    requires s.jobs[s.handlers[h].msg.jobId].status == s.handlers[h].pc.from
    requires c.maxRetries <= MAX_SANE_ATTEMPT && (s.handlers[h].pc.RetrySent? ==> s.handlers[h].attempt + 1 <= c.maxRetries)
    ensures var l, j := (if s.handlers[h].pc.RetrySent? then RecordRetry(h, at) else RecordDead(h, at)), s.handlers[h].msg.jobId;
            && Enabled(s, l) && Undisturbed(s, Apply(c, s, l), h) && Apply(c, s, l).pm == s.pm && j in Apply(c, s, l).jobs
            && (if s.handlers[h].pc.RetrySent?
                then && Apply(c, s, l).handlers[h].pc == MarkingRetry
                     && Apply(c, s, l).jobs[j].status == Retrying
                     && Apply(c, s, l).jobs[j].attemptCount == s.handlers[h].attempt + 1
                     && Apply(c, s, l).jobs[j].nextRetryAt == Some(at)
                else && Apply(c, s, l).handlers[h].pc == Completing(Why.DeadLettered)
                     && Apply(c, s, l).jobs[j].status == Failed
                     && Apply(c, s, l).jobs[j].errorCode == Some(MaxRetriesExceeded))
  {
    RecordSwap(c, s, h, at);
    hide Apply, Enabled, SwapOf, NextAttempt;
    if s.handlers[h].pc.RetrySent? {
      NextAttemptExact(c, s.handlers[h].attempt);
      CasFacts(c, s, RecordRetry(h, at));
    } else {
      CasFacts(c, s, RecordDead(h, at));
    }
  }

  lemma RetryMarkFacts(c: Config, s: State, h: HandlerId)
    requires At(s, h, MarkingRetry) && Owns(s, h)
    requires Pm.HoldsProcessing(s.pm, s.handlers[h].msg.messageId, s.handlers[h].token)
    ensures Enabled(s, MarkRetry(h)) && Enabled(Apply(c, s, MarkRetry(h)), Ack(h))
    ensures var s' := Apply(c, Apply(c, s, MarkRetry(h)), Ack(h));
            && Gone(s, s', h) && s'.jobs == s.jobs
            && s'.pm == Pm.MarkedRetry(s.pm, s.handlers[h].msg.messageId, s.handlers[h].token)
  {
    hide Enabled, Apply, Pm.MarkedRetry;
    MarkStep(c, s, h, 0);
    MarkFacts(c, s, h, 0);
    AckFacts(c, Apply(c, s, MarkRetry(h)), h);
  }

  // A job its worker left in the middle of a stage: with a retry left, the lease holder of
  // the redelivery publishes the next attempt, records it and makes the row resumable.
  lemma StuckJobIsRetried(c: Config, s: State, h: HandlerId, at: Time) returns (s': State)
    requires c.maxRetries <= MAX_SANE_ATTEMPT && s.nextSeq !in s.inFlight && At(s, h, Loading) && Owns(s, h)
    requires s.handlers[h].msg.jobId in s.jobs && IsStage(s.jobs[s.handlers[h].msg.jobId].status)
    requires Pm.HoldsProcessing(s.pm, s.handlers[h].msg.messageId, s.handlers[h].token)
    requires s.handlers[h].attempt + 1 <= c.maxRetries
    ensures Run(c, s, [Load(h)] + ([SendNext(h, Confirmed)] + ([RecordRetry(h, at)] + ([MarkRetry(h)] + ([Ack(h)] + [])))), s')
    ensures var x, j, m := s.handlers[h], s.handlers[h].msg.jobId, s.handlers[h].msg.messageId;
            && h !in s'.handlers && j in s'.jobs && s'.jobs[j].status == Retrying
            && s'.jobs[j].attemptCount == x.attempt + 1 && s'.jobs[j].nextRetryAt == Some(at)
            && s'.inFlight == s.inFlight[s.nextSeq := Envelope(WorkerMessage(j, m, x.attempt + 1), RetryQueue)] - {x.tag}
            && m in s'.pm && s'.pm[m].status == Pm.RetryScheduled
  {
    hide Enabled, Apply, Run, WorkerMessage;
    LoadFacts(c, s, h);
    var t := Apply(c, s, Load(h));
    SendFacts(c, t, h);
    var u := Apply(c, t, SendNext(h, Confirmed));
    RecordFacts(c, u, h, at);
    var v := Apply(c, u, RecordRetry(h, at));
    RetryMarkFacts(c, v, h);
    var w := Apply(c, v, MarkRetry(h));
    s' := Apply(c, w, Ack(h));
    Run0(c, s');
    Run1(c, w, Ack(h), [], s');
    Run1(c, v, MarkRetry(h), [Ack(h)] + [], s');
    Run1(c, u, RecordRetry(h, at), [MarkRetry(h)] + ([Ack(h)] + []), s');
    Run1(c, t, SendNext(h, Confirmed), [RecordRetry(h, at)] + ([MarkRetry(h)] + ([Ack(h)] + [])), s');
    Run1(c, s, Load(h), [SendNext(h, Confirmed)] + ([RecordRetry(h, at)] + ([MarkRetry(h)] + ([Ack(h)] + []))), s');
  }

  // Without one, it is dead-lettered and failed.
  lemma StuckJobIsDeadLettered(c: Config, s: State, h: HandlerId, at: Time, done: Time) returns (s': State)
    requires c.maxRetries <= MAX_SANE_ATTEMPT && s.nextSeq !in s.inFlight && At(s, h, Loading) && Owns(s, h)
    requires s.handlers[h].msg.jobId in s.jobs && IsStage(s.jobs[s.handlers[h].msg.jobId].status)
    requires Pm.Holds(s.pm, s.handlers[h].msg.messageId, s.handlers[h].token)
    requires s.handlers[h].attempt + 1 > c.maxRetries
    ensures Run(c, s, [Load(h)] + ([SendNext(h, Confirmed)] + ([RecordDead(h, at)] + ([MarkDone(h, done)] + ([Ack(h)] + [])))), s')
    ensures var x, j, m := s.handlers[h], s.handlers[h].msg.jobId, s.handlers[h].msg.messageId;
            && Gone(s, s', h) && j in s'.jobs && s'.jobs[j].status == Failed
            && s'.jobs[j].errorCode == Some(MaxRetriesExceeded)
            && m in s'.pm && s'.pm[m].status == Pm.Completed
  {
    hide Enabled, Apply, Run, WorkerMessage;
    LoadFacts(c, s, h);
    var t := Apply(c, s, Load(h));
    assert t.nextSeq == s.nextSeq;
    SendFacts(c, t, h);
    var u := Apply(c, t, SendNext(h, Confirmed));
    RecordFacts(c, u, h, at);
    var v := Apply(c, u, RecordDead(h, at));
    s' := CompleteAndAck(c, v, h, done);
    Run1(c, u, RecordDead(h, at), [MarkDone(h, done)] + ([Ack(h)] + []), s');
    Run1(c, t, SendNext(h, Confirmed), [RecordDead(h, at)] + ([MarkDone(h, done)] + ([Ack(h)] + [])), s');
    Run1(c, s, Load(h), [SendNext(h, Confirmed)] + ([RecordDead(h, at)] + ([MarkDone(h, done)] + ([Ack(h)] + []))), s');
  }
}
