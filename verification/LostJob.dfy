// One concrete run in which a job is lost, and the configurations that rule it out.
module LostJob {
  import opened Options
  import opened JobStatus
  import opened Messages
  import opened QueryJobs
  import opened Delivery
  import opened DeliveryFrames
  import opened DeliverySafety
  import opened DeliveryTheorems
  import Pm = Idempotency

  // ---- a concrete lost job -------------------------------------------------

  lemma ReachStep(c: Config, s: State, l: Label, s': State)
    requires Reachable(c, s) && Enabled(s, l) && s' == Apply(c, s, l)
    ensures Reachable(c, s')
  {
    hide Apply, Enabled;
    var ls :| Run(c, Init(), ls, s);
    assert Run(c, s, [l], s') by { OneStep(c, s, l, s'); }
    RunConcat(c, Init(), ls, s, [l], s');
  }

  lemma OneStep(c: Config, s: State, l: Label, s': State)
    requires Enabled(s, l) && s' == Apply(c, s, l)
    ensures Run(c, s, [l], s')
  {
    hide Apply, Enabled;
    assert Run(c, s', [], s');
    assert [l][1..] == [];
  }

  // The states of one run: job 1, message 7, everything at time 0.
  function RunState(token: nat, h: nat, q: nat, job: Job, pm: Pm.PmTable, inFlight: map<Seq, Envelope>,
                    handlers: map<HandlerId, Handler>, log: Log): State
  {
    State(0, token, h, q, map[1 := job], map[1 := 7], pm, inFlight, {}, multiset{}, handlers, map[], log)
  }

  function FreshJob(status: Status): Job {
    Job(status, 0, None, None, None, None, None, Some(5))
  }

  function HeldRow(): Pm.PmTable {
    map[7 := Pm.ProcessedMessage(QueryExecutionRequested, 1, 0, Pm.Processing, 0, 30_000_000_000, None)]
  }

  function FirstLog(path: seq<Status>, entries: nat): Log {
    Log(map[1 := 0], {}, map[1 := path], map[1 := entries], {}, {}, {})
  }

  function SubmittedState(): State {
    RunState(0, 0, 1, FreshJob(Queued), map[], map[0 := Envelope(OutboxMessage(1, 7), Main)], map[],
             FirstLog([Pending, Queued], 0))
  }

  function HandledState(status: Status, pc: Pc, path: seq<Status>, entries: nat): State {
    RunState(1, 1, 1, FreshJob(status), HeldRow(), map[0 := Envelope(OutboxMessage(1, 7), Unacked(0))],
             map[0 := Handler(0, OutboxMessage(1, 7), 0, 0, false, pc)], FirstLog(path, entries))
  }

  function RetriedLog(path: seq<Status>): Log {
    Log(map[1 := 1], {(1, 1)}, map[1 := path], map[1 := 1], {}, {}, {})
  }

  function RetriedQueue(place: Place): map<Seq, Envelope> {
    map[0 := Envelope(OutboxMessage(1, 7), place), 1 := Envelope(WorkerMessage(1, 7, 1), RetryQueue)]
  }

  function RetrySentState(): State {
    RunState(1, 1, 2, FreshJob(Generating), HeldRow(), RetriedQueue(Unacked(0)),
             map[0 := Handler(0, OutboxMessage(1, 7), 0, 0, false, RetrySent(Generating))],
             RetriedLog([Pending, Queued, Generating]))
  }

  // The worker died between recording the retry and marking its idempotency row:
  // the job waits for attempt 1, the row is still held, attempt 0 is back in the queue.
  function CrashedState(): State {
    RunState(1, 1, 2, FreshJob(Retrying).(attemptCount := 1, nextRetryAt := Some(30_000_000_000)), HeldRow(),
             RetriedQueue(Main), map[], RetriedLog([Pending, Queued, Generating] + [Retrying]))
  }

  lemma ReachSubmitted(c: Config)
    ensures Reachable(c, SubmittedState())
  {
    assert Run(c, Init(), [], Init());
    var s1 := Apply(c, Init(), Submit(1, 7, 5));
    ReachStep(c, Init(), Submit(1, 7, 5), s1);
    ReachStep(c, s1, MainPublish(1), SubmittedState());
  }

  lemma ReachLoading(c: Config)
    ensures Reachable(c, HandledState(Queued, Loading, [Pending, Queued], 0))
  {
    ReachSubmitted(c);
    hide Reachable;
    var s0 := SubmittedState();
    var s1 := Apply(c, s0, Deliver(0));
    ReachStep(c, s0, Deliver(0), s1);
    ReachStep(c, s1, Claim(0, 0), HandledState(Queued, Loading, [Pending, Queued], 0));
  }

  lemma ReachEntering(c: Config)
    ensures Reachable(c, HandledState(Queued, Entering(Queued), [Pending, Queued], 0))
  {
    ReachLoading(c);
    hide Reachable;
    ReachStep(c, HandledState(Queued, Loading, [Pending, Queued], 0), Load(0),
              HandledState(Queued, Entering(Queued), [Pending, Queued], 0));
  }

  lemma ReachGenerating(c: Config)
    ensures Reachable(c, HandledState(Generating, Stage(Generating), [Pending, Queued] + [Generating], 1))
  {
    ReachEntering(c);
    Entered(c);
    hide Reachable, Apply, Enabled, HandledState;
    ReachStep(c, HandledState(Queued, Entering(Queued), [Pending, Queued], 0), Enter(0),
              HandledState(Generating, Stage(Generating), [Pending, Queued] + [Generating], 1));
  }

  lemma Entered(c: Config)
    ensures var s := HandledState(Queued, Entering(Queued), [Pending, Queued], 0);
            Enabled(s, Enter(0)) && Apply(c, s, Enter(0)) ==
              HandledState(Generating, Stage(Generating), [Pending, Queued] + [Generating], 1)
  {
    hide Transitioned, Swapped;
    EnteredSwap();
  }

  lemma EnteredSwap()
    ensures var s := HandledState(Queued, Entering(Queued), [Pending, Queued], 0);
            Swapped(s, 0, Queued, Transitioned(s.jobs, 1, Queued, Generating), Generating, Stage(Generating)) ==
              HandledState(Generating, Stage(Generating), [Pending, Queued] + [Generating], 1)
  {
    var s := HandledState(Queued, Entering(Queued), [Pending, Queued], 0);
    assert Transitioned(s.jobs, 1, Queued, Generating) == map[1 := FreshJob(Generating)];
    hide Transitioned;
  }

  lemma ReachRescheduling(c: Config)
    ensures Reachable(c, HandledState(Generating, Rescheduling(Generating), [Pending, Queued, Generating], 1))
  {
    ReachGenerating(c);
    hide Reachable;
    assert [Pending, Queued] + [Generating] == [Pending, Queued, Generating];
    ReachStep(c, HandledState(Generating, Stage(Generating), [Pending, Queued, Generating], 1), Hiccup(0),
              HandledState(Generating, Rescheduling(Generating), [Pending, Queued, Generating], 1));
  }

  lemma ReachRetrySent(c: Config)
    requires c.maxRetries > 0
    ensures Reachable(c, RetrySentState())
  {
    ReachRescheduling(c);
    RetrySentNext(c);
    hide Reachable, Apply, Enabled, HandledState, RetrySentState;
    ReachStep(c, HandledState(Generating, Rescheduling(Generating), [Pending, Queued, Generating], 1),
              SendNext(0, Confirmed), RetrySentState());
  }

  lemma RetrySentNext(c: Config)
    requires c.maxRetries > 0
    ensures var s := HandledState(Generating, Rescheduling(Generating), [Pending, Queued, Generating], 1);
            Enabled(s, SendNext(0, Confirmed)) && Apply(c, s, SendNext(0, Confirmed)) == RetrySentState()
  {
  }

  function RetryRecordedState(): State {
    RunState(1, 1, 2, FreshJob(Retrying).(attemptCount := 1, nextRetryAt := Some(30_000_000_000)), HeldRow(),
             RetriedQueue(Unacked(0)),
             map[0 := Handler(0, OutboxMessage(1, 7), 0, 0, false, MarkingRetry)],
             RetriedLog([Pending, Queued, Generating] + [Retrying]))
  }

  lemma ReachRetryRecorded(c: Config)
    requires c.maxRetries > 0
    ensures Reachable(c, RetryRecordedState())
  {
    ReachRetrySent(c);
    RetryRecorded(c);
    hide Reachable, Apply, Enabled, RetrySentState, RetryRecordedState;
    ReachStep(c, RetrySentState(), RecordRetry(0, 30_000_000_000), RetryRecordedState());
  }

  lemma RetryRecorded(c: Config)
    ensures var l := RecordRetry(0, 30_000_000_000);
            Enabled(RetrySentState(), l) && Apply(c, RetrySentState(), l) == RetryRecordedState()
  {
    assert NextAttempt(0) == 1;
    hide SetRetrying, Swapped, NextAttempt;
    RetryRecordedSwap(30_000_000_000);
  }

  lemma RetryRecordedSwap(at: Time)
    requires at == 30_000_000_000
    ensures Swapped(RetrySentState(), 0, Generating, SetRetrying(RetrySentState().jobs, 1, Generating, 1, at), Retrying,
                    MarkingRetry) == RetryRecordedState()
  {
    var s := RetrySentState();
    assert SetRetrying(s.jobs, 1, Generating, 1, at)
        == map[1 := FreshJob(Retrying).(attemptCount := 1, nextRetryAt := Some(at))];
    hide SetRetrying;
  }

  lemma ReachCrashed(c: Config)
    requires c.maxRetries > 0
    ensures Reachable(c, CrashedState())
  {
    ReachRetryRecorded(c);
    hide Reachable;
    ReachStep(c, RetryRecordedState(), GiveUp(0), CrashedState());
  }

  // Thirty seconds later the old attempt has been delivered again and takes the lease over.
  function TakenOverState(): State {
    CrashedState().(
      clock := 40_000_000_000, nextToken := 2, nextHandler := 2,
      pm := map[7 := Pm.ProcessedMessage(QueryExecutionRequested, 1, 0, Pm.Processing, 1, 70_000_000_000, None)],
      inFlight := RetriedQueue(Unacked(1)),
      handlers := map[1 := Handler(0, OutboxMessage(1, 7), 0, 1, false, Loading)])
  }

  lemma ReachTakenOver(c: Config)
    requires c.maxRetries > 0
    ensures Reachable(c, TakenOverState())
  {
    ReachCrashed(c);
    hide Reachable;
    var s0 := CrashedState();
    var s1 := s0.(clock := 40_000_000_000);
    ReachStep(c, s0, Tick(40_000_000_000), s1);
    var s2 := s1.(nextHandler := 2, inFlight := RetriedQueue(Unacked(1)),
                  handlers := map[1 := Handler(0, OutboxMessage(1, 7), 0, 0, false, Received)]);
    ReachStep(c, s1, Deliver(0), s2);
    ReachStep(c, s2, Claim(1, 40_000_000_000), TakenOverState());
  }

  // It finds the job waiting for attempt 1 and calls itself stale.
  function StaleState(): State {
    TakenOverState().(
      handlers := map[1 := Handler(0, OutboxMessage(1, 7), 0, 1, false, Completing(StaleAttempt))],
      log := TakenOverState().log.(stale := {1}))
  }

  lemma ReachStale(c: Config)
    requires c.maxRetries > 0
    ensures Reachable(c, StaleState())
  {
    ReachTakenOver(c);
    StaleFound(c);
    hide Reachable, Apply, Enabled, TakenOverState, StaleState;
    ReachStep(c, TakenOverState(), Load(1), StaleState());
  }

  lemma StaleFound(c: Config)
    ensures Enabled(TakenOverState(), Load(1)) && Apply(c, TakenOverState(), Load(1)) == StaleState()
  {
  }

  // Completing the row loses the job: the waiting attempt 1 will be dropped as a duplicate.
  lemma LostJobExists(c: Config) returns (s: State)
    requires c.maxRetries > 0
    ensures Reachable(c, s) && Lost(s, 1) && Abandoned(s, 1) && s.jobs[1].status == Retrying
  {
    ReachStale(c);
    hide Reachable;
    s := Apply(c, StaleState(), MarkDone(1, 40_000_000_000));
    ReachStep(c, StaleState(), MarkDone(1, 40_000_000_000), s);
  }

  // ---- when no job can be lost ---------------------------------------------

  // Without retries nothing is ever sent to the retry queue by a worker, so no
  // job waits for an attempt and no attempt is stale.
  predicate NothingRetried(s: State) {
    s.log.sent == {} && s.log.stale == {}
  }

  lemma NothingRetriedStep(c: Config, s: State, l: Label)
    requires c.maxRetries <= 0 && Inv(c, s) && Enabled(s, l) && NothingRetried(s)
    ensures NothingRetried(Apply(c, s, l))
  {
    hide Inv, RowOk, HandlerOk, Published, DeadLetter, WorkerMessage;
    if l.Load? {
      HandlerFacts(c, s, l.h);
      NoStaleLoad(c, s, l.h);
    } else if l.SendNext? {
      DeadLetterNotes(s, l.h, l.p);
    } else {
      hide Apply, Enabled;
      if SwapLabel(l) {
        SwapNotes(c, s, l);
      } else if PmLabel(l) {
        PmNotes(c, s, l);
      } else {
        OtherNotes(c, s, l);
      }
    }
  }

  lemma NoStaleLoad(c: Config, s: State, h: HandlerId)
    requires h in s.handlers && NothingRetried(s) && s.handlers[h].msg.jobId in s.jobs
    requires RowOk(c, s, s.handlers[h].msg.jobId, s.jobs[s.handlers[h].msg.jobId])
    ensures NothingRetried(AfterLoad(s, h))
  {
    hide Kept, DlqHas;
  }

  lemma DeadLetterNotes(s: State, h: HandlerId, p: Publish)
    requires h in s.handlers && s.handlers[h].pc.Rescheduling? && NothingRetried(s)
    ensures forall c: Config :: c.maxRetries <= 0 ==> NothingRetried(AfterSendNext(c, s, h, p))
  {
    hide WorkerMessage, Published;
  }

  lemma {:induction false} NothingRetriedRun(c: Config, s: State, ls: seq<Label>, s': State)
    requires c.maxRetries <= 0 && Inv(c, s) && Run(c, s, ls, s') && NothingRetried(s)
    ensures NothingRetried(s')
    decreases |ls|
  {
    hide Inv, Apply, Enabled, NothingRetried, Grows;
    if ls != [] {
      NothingRetriedStep(c, s, ls[0]);
      StepKeeps(c, s, ls[0]);
      NothingRetriedRun(c, Apply(c, s, ls[0]), ls[1..], s');
    }
  }

  lemma NoRetriesNoLoss(c: Config, s: State, j: JobId)
    requires c.maxRetries <= 0 && Reachable(c, s)
    ensures !Lost(s, j)
  {
    hide Inv, Apply, Enabled, Run, Terminal, PmDone;
    var ls :| Run(c, Init(), ls, s);
    InitInv(c);
    NothingRetriedRun(c, Init(), ls, s);
    if PmDone(s, j) {
      CompletedMeansTerminal(c, s, j);
    }
  }

  // Some run loses a job exactly when retries are configured at all.
  lemma LossPossibleIffRetries(c: Config)
    ensures (exists s, j :: Reachable(c, s) && Lost(s, j)) <==> c.maxRetries > 0
  {
    hide Reachable, Lost;
    if c.maxRetries > 0 {
      var s := LostJobExists(c);
      assert Reachable(c, s) && Lost(s, 1);
    } else {
      forall s, j | Reachable(c, s) ensures !Lost(s, j) {
        NoRetriesNoLoss(c, s, j);
      }
    }
  }
}
