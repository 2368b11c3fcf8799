// A second way into the lost-job branch: the database write after a confirmed
// retry publish fails. The worker of attempt 0 stops between publishing attempt 1
// and SetRetrying; its redelivery is deferred, attempt 1 takes the lease over and
// records attempt 2, and the deferred attempt 0 then settles the job as stale.
module LostAfterWrite {
  import opened Options
  import opened JobStatus
  import opened Messages
  import opened QueryJobs
  import opened Delivery
  import opened DeliverySafety
  import opened DeliveryTheorems
  import opened LostJob
  import Pm = Idempotency

  const LATER: Time := 40_000_000_000

  function Queued3(first: Place, copy: Place): map<Seq, Envelope> {
    map[1 := Envelope(WorkerMessage(1, 7, 1), first), 2 := Envelope(WorkerMessage(1, 7, 0), copy)]
  }

  function Row(status: Pm.PmStatus, token: Pm.Token, expiresAt: Time): Pm.PmTable {
    map[7 := Pm.ProcessedMessage(QueryExecutionRequested, 1, 0, status, token, expiresAt, None)]
  }

  function Notes(newest: Seq, sent: set<(JobId, nat)>, path: seq<Status>, stale: set<JobId>): Log {
    Log(map[1 := newest], sent, map[1 := path], map[1 := 1], stale, {}, {})
  }

  // SetRetrying failed: the worker is gone, its delivery is back in the queue.
  function WriteFailed(): State {
    RetrySentState().(inFlight := RetriedQueue(Main), handlers := map[])
  }

  // The redelivered attempt 0 finds the lease held.
  function Redelivered(pc: Pc): State {
    WriteFailed().(nextToken := 2, nextHandler := 2, inFlight := RetriedQueue(Unacked(1)),
                   handlers := map[1 := Handler(0, OutboxMessage(1, 7), 0, 1, false, pc)])
  }

  // Its copy waits behind attempt 1.
  function Deferred(): State {
    RunState(2, 2, 3, FreshJob(Generating), HeldRow(), Queued3(RetryQueue, RetryQueue), map[],
             Notes(2, {(1, 1)}, [Pending, Queued, Generating], {}))
  }

  function Snapshot(token: nat, h: nat, q: nat, job: Job, pm: Pm.PmTable, inFlight: map<Seq, Envelope>,
                    handlers: map<HandlerId, Handler>, log: Log): State
  {
    State(LATER, token, h, q, map[1 := job], map[1 := 7], pm, inFlight, {}, multiset{}, handlers, map[], log)
  }

  function SecondHandler(pc: Pc): map<HandlerId, Handler> {
    map[2 := Handler(1, WorkerMessage(1, 7, 1), 1, 2, false, pc)]
  }

  // Attempt 1, after the lease of attempt 0 ran out.
  function SecondAttempt(pc: Pc): State {
    Snapshot(3, 3, 3, FreshJob(Generating), Row(Pm.Processing, 2, 70_000_000_000), Queued3(Unacked(2), RetryQueue),
             SecondHandler(pc), Notes(2, {(1, 1)}, [Pending, Queued, Generating], {}))
  }

  function TwiceSent(first: Place): map<Seq, Envelope> {
    Queued3(first, RetryQueue)[3 := Envelope(WorkerMessage(1, 7, 2), RetryQueue)]
  }

  function SecondSent(): State {
    Snapshot(3, 3, 4, FreshJob(Generating), Row(Pm.Processing, 2, 70_000_000_000), TwiceSent(Unacked(2)),
             SecondHandler(RetrySent(Generating)), Notes(3, {(1, 1), (1, 2)}, [Pending, Queued, Generating], {}))
  }

  function Waiting2(): Job {
    FreshJob(Retrying).(attemptCount := 2, nextRetryAt := Some(70_000_000_000))
  }

  function RecordedLog(): Log {
    Notes(3, {(1, 1), (1, 2)}, [Pending, Queued, Generating] + [Retrying], {})
  }

  function SecondRecorded(pc: Pc, status: Pm.PmStatus): State {
    Snapshot(3, 3, 4, Waiting2(), Row(status, 2, 70_000_000_000), TwiceSent(Unacked(2)), SecondHandler(pc), RecordedLog())
  }

  function LastQueue(copy: Place): map<Seq, Envelope> {
    map[2 := Envelope(WorkerMessage(1, 7, 0), copy), 3 := Envelope(WorkerMessage(1, 7, 2), RetryQueue)]
  }

  // Attempt 2 waits in the retry queue, the copy of attempt 0 too.
  function SecondDone(copy: Place): State {
    Snapshot(3, 3, 4, Waiting2(), Row(Pm.RetryScheduled, 2, 70_000_000_000), LastQueue(copy), map[], RecordedLog())
  }

  function ThirdHandler(attempt: nat, token: Pm.Token, pc: Pc): map<HandlerId, Handler> {
    map[3 := Handler(2, WorkerMessage(1, 7, 0), attempt, token, false, pc)]
  }

  function CopyDelivered(): State {
    Snapshot(3, 4, 4, Waiting2(), Row(Pm.RetryScheduled, 2, 70_000_000_000), LastQueue(Unacked(3)),
             ThirdHandler(0, 0, Received), RecordedLog())
  }

  // The copy resumes the row and finds the job waiting for attempt 2.
  function Resumed0(pc: Pc, stale: set<JobId>): State {
    Snapshot(4, 4, 4, Waiting2(), Row(Pm.Processing, 3, 70_000_000_000), LastQueue(Unacked(3)), ThirdHandler(0, 3, pc),
             Notes(3, {(1, 1), (1, 2)}, [Pending, Queued, Generating] + [Retrying], stale))
  }

  // ---- the run -------------------------------------------------------------

  lemma ReachWriteFailed(c: Config)
    requires c.maxRetries > 1
    ensures Reachable(c, WriteFailed())
  {
    ReachRetrySent(c);
    hide Reachable;
    ReachStep(c, RetrySentState(), GiveUp(0), WriteFailed());
  }

  lemma ReachRedelivered(c: Config)
    requires c.maxRetries > 1
    ensures Reachable(c, Redelivered(Deferring))
  {
    ReachWriteFailed(c);
    hide Reachable;
    var s := Apply(c, WriteFailed(), Deliver(0));
    ReachStep(c, WriteFailed(), Deliver(0), s);
    ReachStep(c, s, Claim(1, 0), Redelivered(Deferring));
  }

  function CopySent(): State {
    Redelivered(Acking(true)).(
      nextSeq := 3, inFlight := RetriedQueue(Unacked(1))[2 := Envelope(WorkerMessage(1, 7, 0), RetryQueue)],
      log := Notes(2, {(1, 1)}, [Pending, Queued, Generating], {}))
  }

  lemma ReachCopySent(c: Config)
    requires c.maxRetries > 1
    ensures Reachable(c, CopySent())
  {
    ReachRedelivered(c);
    hide Reachable;
    ReachStep(c, Redelivered(Deferring), Defer(1, Confirmed), CopySent());
  }

  lemma ReachDeferred(c: Config)
    requires c.maxRetries > 1
    ensures Reachable(c, Deferred())
  {
    ReachCopySent(c);
    hide Reachable;
    ReachStep(c, CopySent(), Ack(1), Deferred());
  }

  function Delivered1(): State {
    Snapshot(2, 3, 3, FreshJob(Generating), HeldRow(), Queued3(Unacked(2), RetryQueue),
             map[2 := Handler(1, WorkerMessage(1, 7, 1), 0, 0, false, Received)],
             Notes(2, {(1, 1)}, [Pending, Queued, Generating], {}))
  }

  lemma ReachDelivered1(c: Config)
    requires c.maxRetries > 1
    ensures Reachable(c, Delivered1())
  {
    ReachDeferred(c);
    hide Reachable;
    var s := Deferred().(clock := LATER);
    ReachStep(c, Deferred(), Tick(LATER), s);
    var t := s.(inFlight := Queued3(Main, RetryQueue));
    ReachStep(c, s, RetryExpire(1), t);
    ReachStep(c, t, Deliver(1), Delivered1());
  }

  lemma ReachSecondClaim(c: Config)
    requires c.maxRetries > 1
    ensures Reachable(c, SecondAttempt(Loading))
  {
    ReachDelivered1(c);
    hide Reachable;
    ReachStep(c, Delivered1(), Claim(2, LATER), SecondAttempt(Loading));
  }

  lemma ReachSecondAttempt(c: Config)
    requires c.maxRetries > 1
    ensures Reachable(c, SecondAttempt(Rescheduling(Generating)))
  {
    ReachSecondClaim(c);
    hide Reachable;
    ReachStep(c, SecondAttempt(Loading), Load(2), SecondAttempt(Rescheduling(Generating)));
  }

  lemma ReachSecondSent(c: Config)
    requires c.maxRetries > 1
    ensures Reachable(c, SecondSent())
  {
    ReachSecondAttempt(c);
    SecondSend(c);
    hide Reachable, Apply, Enabled, SecondSent, SecondAttempt;
    ReachStep(c, SecondAttempt(Rescheduling(Generating)), SendNext(2, Confirmed), SecondSent());
  }

  lemma SecondSend(c: Config)
    requires c.maxRetries > 1
    ensures var s, l := SecondAttempt(Rescheduling(Generating)), SendNext(2, Confirmed);
            Enabled(s, l) && Apply(c, s, l) == SecondSent()
  {
    var s := SecondAttempt(Rescheduling(Generating));
    assert NextAttempt(1) == 2;
    hide NextAttempt, Published, WrapInt32;
    SecondPublish();
  }

  lemma SecondPublish()
    ensures var s := SecondAttempt(Rescheduling(Generating));
            Published(s.(log := s.log.(sent := s.log.sent + {(1, 2)})), 2, WorkerMessage(1, 7, 2), Confirmed, RetrySent(Generating))
              == SecondSent()
  {
    var s := SecondAttempt(Rescheduling(Generating));
    assert s.log.sent + {(1, 2)} == {(1, 1), (1, 2)};
    hide WrapInt32;
    assert Queued3(Unacked(2), RetryQueue)[3 := Envelope(WorkerMessage(1, 7, 2), RetryQueue)] == TwiceSent(Unacked(2));
  }

  lemma ReachSecondRecorded(c: Config)
    requires c.maxRetries > 1
    ensures Reachable(c, SecondRecorded(MarkingRetry, Pm.Processing))
  {
    ReachSecondSent(c);
    SecondSwap(c);
    hide Reachable, Apply, Enabled, SecondSent, SecondRecorded;
    ReachStep(c, SecondSent(), RecordRetry(2, 70_000_000_000), SecondRecorded(MarkingRetry, Pm.Processing));
  }

  lemma SecondSwap(c: Config)
    ensures var l := RecordRetry(2, 70_000_000_000);
            Enabled(SecondSent(), l) && Apply(c, SecondSent(), l) == SecondRecorded(MarkingRetry, Pm.Processing)
  {
    assert NextAttempt(1) == 2;
    hide SetRetrying, Swapped, NextAttempt;
    SecondSwapped(70_000_000_000);
  }

  lemma SecondSwapped(at: Time)
    requires at == 70_000_000_000
    ensures Swapped(SecondSent(), 2, Generating, SetRetrying(SecondSent().jobs, 1, Generating, 2, at), Retrying, MarkingRetry)
         == SecondRecorded(MarkingRetry, Pm.Processing)
  {
    assert SetRetrying(SecondSent().jobs, 1, Generating, 2, at) == map[1 := Waiting2()];
    hide SetRetrying;
  }

  lemma ReachSecondMarked(c: Config)
    requires c.maxRetries > 1
    ensures Reachable(c, SecondRecorded(Acking(true), Pm.RetryScheduled))
  {
    ReachSecondRecorded(c);
    hide Reachable;
    ReachStep(c, SecondRecorded(MarkingRetry, Pm.Processing), MarkRetry(2), SecondRecorded(Acking(true), Pm.RetryScheduled));
  }

  lemma ReachSecondDone(c: Config)
    requires c.maxRetries > 1
    ensures Reachable(c, SecondDone(RetryQueue))
  {
    ReachSecondMarked(c);
    hide Reachable;
    ReachStep(c, SecondRecorded(Acking(true), Pm.RetryScheduled), Ack(2), SecondDone(RetryQueue));
  }

  lemma ReachCopyDelivered(c: Config)
    requires c.maxRetries > 1
    ensures Reachable(c, CopyDelivered())
  {
    ReachSecondDone(c);
    hide Reachable;
    ReachStep(c, SecondDone(RetryQueue), RetryExpire(2), SecondDone(Main));
    ReachStep(c, SecondDone(Main), Deliver(2), CopyDelivered());
  }

  lemma ReachResumed(c: Config)
    requires c.maxRetries > 1
    ensures Reachable(c, Resumed0(Loading, {}))
  {
    ReachCopyDelivered(c);
    hide Reachable;
    ReachStep(c, CopyDelivered(), Claim(3, LATER), Resumed0(Loading, {}));
  }

  lemma ReachStale0(c: Config)
    requires c.maxRetries > 1
    ensures Reachable(c, Resumed0(Completing(StaleAttempt), {1}))
  {
    ReachResumed(c);
    StaleFound(c);
    hide Reachable, Apply, Enabled, Resumed0;
    ReachStep(c, Resumed0(Loading, {}), Load(3), Resumed0(Completing(StaleAttempt), {1}));
  }

  lemma StaleFound(c: Config)
    ensures var s := Resumed0(Loading, {});
            Enabled(s, Load(3)) && Apply(c, s, Load(3)) == Resumed0(Completing(StaleAttempt), {1})
  {
  }

  // With at least two retries, a failing write after a confirmed publish can lose the job.
  lemma LostAfterFailedWrite(c: Config) returns (s: State)
    requires c.maxRetries > 1
    ensures Reachable(c, s) && Lost(s, 1) && Abandoned(s, 1)
    ensures s.jobs[1].status == Retrying && s.jobs[1].attemptCount == 2
  {
    ReachStale0(c);
    hide Reachable;
    var stale := Resumed0(Completing(StaleAttempt), {1});
    s := Apply(c, stale, MarkDone(3, LATER));
    ReachStep(c, stale, MarkDone(3, LATER), s);
  }
}
