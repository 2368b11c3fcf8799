// The delivery protocol as a transition system: query_jobs, processed_messages,
// the broker queues, the result cache, and any number of delivery handlers
// (consumer.go and worker_service.go), each at its own program counter.
// Every database statement, publish or cache write is one atomic step.
module Delivery {
  import opened Options
  import opened JobStatus
  import opened Messages
  import opened QueryJobs
  import Pm = Idempotency

  type HandlerId = nat
  type Seq = nat  // publish number of a message in the main or retry queue

  datatype Config = Config(maxRetries: int, resultTTL: nat)

  // ---- state ---------------------------------------------------------------

  datatype Place = Main | RetryQueue | Unacked(holder: HandlerId)

  datatype Envelope = Envelope(msg: Message, place: Place)

  // A message its publisher gave up on that may still reach the retry queue or the DLQ.
  datatype Late = Late(msg: Message, dead: bool)

  datatype Why = WasTerminal | StaleAttempt | Finished | DeadLettered | JobMissing

  // Where the handler of one delivery stands.
  datatype Pc =
    | Received                              // envelope not yet validated, nothing claimed
    | Rejecting                             // dlqDirect
    | Deferring                             // lease held elsewhere: republish the same attempt
    | Loading                               // lease taken, FindByID next
    | Entering(from: Status)                // TransitionStatus(from -> generating) next
    | Stage(at: Status)                     // inside runPipeline
    | Stored(rows: nat, now: Time)          // result cached, SetSucceeded next
    | Rescheduling(from: Status)            // scheduleRetryOrFail
    | RetrySent(from: Status)               // retry confirmed, SetRetrying next
    | DlqSent(from: Status)                 // DLQ copy confirmed, SetFailed next
    | Orphaned                              // dlqThenComplete
    | Completing(why: Why)                  // MarkCompleted next
    | MarkingRetry                          // MarkRetryScheduled next
    | Acking(handedOff: bool)               // handle returned outcomeAck
    | Aborted                               // handle returned outcomeNackRequeue or outcomeFatal

  datatype Handler = Handler(
    tag: Seq, msg: Message, attempt: nat, token: Pm.Token, leaseLost: bool, pc: Pc)

  datatype CacheEntry = CacheEntry(rows: nat, liveUntil: Time)

  // History the code does not keep; no step is enabled or disabled by it.
  datatype Log = Log(
    newest: map<JobId, Seq>,                // last message published to main or retry queue
    sent: set<(JobId, nat)>,                // retries ever scheduled, with their attempt
    path: map<JobId, seq<Status>>,          // every status the row went through
    entries: map<JobId, nat>,               // times the pipeline was entered
    stale: set<JobId>,                      // jobs for which the stale-attempt branch was taken
    cached: set<JobId>,                     // jobs whose result was ever stored
    evicted: set<JobId>)                    // jobs whose stored result the cache ever dropped

  datatype State = State(
    clock: Time,
    nextToken: Pm.Token,
    nextHandler: HandlerId,
    nextSeq: Seq,
    jobs: JobTable,
    ids: map<JobId, MessageId>,             // message id of the outbox row committed with the job
    pm: Pm.PmTable,
    inFlight: map<Seq, Envelope>,           // published to main or retry queue, not yet ACKed
    dlq: set<Message>,
    wire: multiset<Late>,
    handlers: map<HandlerId, Handler>,
    store: map<JobId, CacheEntry>,
    log: Log)

  function Init(): State {
    State(0, 0, 0, 0, map[], map[], map[], map[], {}, multiset{}, map[], map[],
          Log(map[], {}, map[], map[], {}, {}, {}))
  }

  // ---- labels --------------------------------------------------------------

  // What a publish with confirms can do: the broker may take the message and
  // the publisher still see an error (timeout, cancelled context); a message that did
  // not enter while its publisher waited may do so later.
  datatype Publish = Confirmed | EnteredButFailed | NotEntered

  datatype Label =
    | Tick(t: Time)
    | Submit(j: JobId, m: MessageId, owner: nat)
    | MainPublish(j: JobId)                 // by an outbox dispatcher, possibly more than once
    | Surface(w: Late)                      // a message enters after its publisher gave up
    | RetryExpire(q: Seq)                   // retry-queue TTL: dead-lettered back to main
    | Deliver(q: Seq)
    | Disconnect(h: HandlerId)              // broker requeues while the handler still runs
    | GiveUp(h: HandlerId)                  // crash, NACK with requeue, or channel closed
    | Evict(j: JobId)
    | Claim(h: HandlerId, now: Time)
    | Renew(h: HandlerId, now: Time)
    | Defer(h: HandlerId, p: Publish)
    | Reject(h: HandlerId, p: Publish)
    | Load(h: HandlerId)
    | SendOrphan(h: HandlerId, p: Publish)
    | Enter(h: HandlerId)
    | Advance(h: HandlerId)
    | Hiccup(h: HandlerId)                  // retryable pipeline error
    | Refuse(h: HandlerId, code: ErrorCode, now: Time)  // deterministic pipeline failure
    | StoreResult(h: HandlerId, rows: nat, now: Time, p: Publish)
    | Succeed(h: HandlerId)
    | SendNext(h: HandlerId, p: Publish)
    | RecordRetry(h: HandlerId, at: Time)
    | RecordDead(h: HandlerId, now: Time)
    | MarkRetry(h: HandlerId)
    | MarkDone(h: HandlerId, now: Time)
    | Ack(h: HandlerId)

  // ---- building blocks -----------------------------------------------------

  function Go(s: State, h: HandlerId, pc: Pc): State
    requires h in s.handlers
  {
    s.(handlers := s.handlers[h := s.handlers[h].(pc := pc)])
  }

  function Enqueue(s: State, m: Message, place: Place): State {
    s.(inFlight := s.inFlight[s.nextSeq := Envelope(m, place)],
       nextSeq := s.nextSeq + 1,
       log := s.log.(newest := s.log.newest[m.jobId := s.nextSeq]))
  }

  // After a publish of m to the retry queue: confirmed goes on at pc.
  function Published(s: State, h: HandlerId, m: Message, p: Publish, pc: Pc): State
    requires h in s.handlers
  {
    match p
    case Confirmed => Go(Enqueue(s, m, RetryQueue), h, pc)
    case EnteredButFailed => Go(Enqueue(s, m, RetryQueue), h, Aborted)
    case NotEntered => Go(s.(wire := s.wire + multiset{Late(m, false)}), h, Aborted)
  }

  function DeadLetter(s: State, h: HandlerId, m: Message, p: Publish, pc: Pc): State
    requires h in s.handlers
  {
    match p
    case Confirmed => Go(s.(dlq := s.dlq + {m}), h, pc)
    case EnteredButFailed => Go(s.(dlq := s.dlq + {m}), h, Aborted)
    case NotEntered => Go(s.(wire := s.wire + multiset{Late(m, true)}), h, Aborted)
  }

  // A compare-and-set on the job row: the row moved to `to`, or a conflict.
  function Swapped(s: State, h: HandlerId, from: Status, after: JobTable, to: Status, pc: Pc): State
    requires h in s.handlers
  {
    var j := s.handlers[h].msg.jobId;
    if Matches(s.jobs, j, from) then Go(Moved(s, j, after, to), h, pc) else Go(s, h, Aborted)
  }

  function Moved(s: State, j: JobId, after: JobTable, to: Status): State {
    s.(jobs := after,
       log := s.log.(path := s.log.path[j := (if j in s.log.path then s.log.path[j] else []) + [to]],
                     entries := if to == Generating
                                then s.log.entries[j := (if j in s.log.entries then s.log.entries[j] else 0) + 1]
                                else s.log.entries))
  }

  // The delivery goes back to the main queue if h still owns it.
  function Returned(s: State, h: HandlerId): map<Seq, Envelope>
    requires h in s.handlers
  {
    var q := s.handlers[h].tag;
    if q in s.inFlight && s.inFlight[q].place == Unacked(h)
    then s.inFlight[q := s.inFlight[q].(place := Main)]
    else s.inFlight
  }

  function Acked(s: State, h: HandlerId): map<Seq, Envelope>
    requires h in s.handlers
  {
    var q := s.handlers[h].tag;
    if q in s.inFlight && s.inFlight[q].place == Unacked(h) then s.inFlight - {q} else s.inFlight
  }

  predicate Working(pc: Pc) {
    match pc
    case Loading => true
    case Entering(_) => true
    case Stage(_) => true
    case Stored(_, _) => true
    case Rescheduling(_) => true
    case RetrySent(_) => true
    case DlqSent(_) => true
    case Orphaned => true
    case Completing(_) => true
    case MarkingRetry => true
    case _ => false
  }

  // Which deterministic failures each stage can report.
  predicate Reports(at: Status, code: ErrorCode) {
    match at
    case Generating => code == UnsupportedQuestion || code == LlmFailed
    case Validating => code == SqlValidationFailed
    case Executing => code == QueryExecutionFailed || code == ResultTooLarge
    case _ => false
  }

  // ---- steps ---------------------------------------------------------------

  predicate Enabled(s: State, l: Label) {
    match l
    case Tick(t) => s.clock < t
    case Submit(j, m, _) => j !in s.jobs && j != 0 && m !in s.ids.Values
    case MainPublish(j) => j in s.ids
    case Surface(w) => w in s.wire
    case RetryExpire(q) => q in s.inFlight && s.inFlight[q].place == RetryQueue
    case Deliver(q) => q in s.inFlight && s.inFlight[q].place == Main
    case Disconnect(h) => h in s.handlers
    case GiveUp(h) => h in s.handlers
    case Evict(j) => j in s.store
    case Claim(h, now) => At(s, h, Received) && now <= s.clock
    case Renew(h, now) => h in s.handlers && Working(s.handlers[h].pc) && now <= s.clock
    case Defer(h, _) => At(s, h, Deferring)
    case Reject(h, _) => At(s, h, Rejecting)
    case Load(h) => At(s, h, Loading)
    case SendOrphan(h, _) => At(s, h, Orphaned)
    case Enter(h) => h in s.handlers && s.handlers[h].pc.Entering?
    case Advance(h) => At(s, h, Stage(Generating)) || At(s, h, Stage(Validating))
    case Hiccup(h) => h in s.handlers && s.handlers[h].pc.Stage?
    case Refuse(h, code, _) => h in s.handlers && s.handlers[h].pc.Stage? && Reports(s.handlers[h].pc.at, code)
    case StoreResult(h, _, now, _) => At(s, h, Stage(Executing)) && now <= s.clock
    case Succeed(h) => h in s.handlers && s.handlers[h].pc.Stored?
    case SendNext(h, _) => h in s.handlers && s.handlers[h].pc.Rescheduling?
    case RecordRetry(h, _) => h in s.handlers && s.handlers[h].pc.RetrySent?
    case RecordDead(h, _) => h in s.handlers && s.handlers[h].pc.DlqSent?
    case MarkRetry(h) => At(s, h, MarkingRetry)
    case MarkDone(h, _) => h in s.handlers && s.handlers[h].pc.Completing?
    case Ack(h) => h in s.handlers && s.handlers[h].pc.Acking?
  }

  predicate At(s: State, h: HandlerId, pc: Pc) {
    h in s.handlers && s.handlers[h].pc == pc
  }

  function Apply(c: Config, s: State, l: Label): State
    requires Enabled(s, l)
  {
    match l
    case Tick(t) => s.(clock := t)
    case Submit(j, m, owner) => AfterSubmit(s, j, m, owner)
    case MainPublish(j) => Enqueue(s, OutboxMessage(j, s.ids[j]), Main)
    case Surface(w) => AfterSurface(s, w)
    case RetryExpire(q) => s.(inFlight := s.inFlight[q := s.inFlight[q].(place := Main)])
    case Deliver(q) => AfterDeliver(s, q)
    case Disconnect(h) => s.(inFlight := Returned(s, h))
    case GiveUp(h) => s.(inFlight := Returned(s, h), handlers := s.handlers - {h})
    case Evict(j) => s.(store := s.store - {j}, log := s.log.(evicted := s.log.evicted + {j}))
    case Claim(h, now) => AfterClaim(s, h, now)
    case Renew(h, now) => AfterRenew(s, h, now)
    case Defer(h, p) =>
      var x := s.handlers[h];
      Published(s, h, WorkerMessage(x.msg.jobId, x.msg.messageId, x.attempt), p, Acking(true))
    case Reject(h, p) =>
      var x := s.handlers[h];
      DeadLetter(s, h, WorkerMessage(x.msg.jobId, x.msg.messageId, x.attempt), p, Acking(false))
    case Load(h) => AfterLoad(s, h)
    case SendOrphan(h, p) =>
      var x := s.handlers[h];
      DeadLetter(s, h, WorkerMessage(x.msg.jobId, x.msg.messageId, x.attempt), p, Completing(JobMissing))
    case Enter(h) =>
      var x := s.handlers[h];
      Swapped(s, h, x.pc.from, Transitioned(s.jobs, x.msg.jobId, x.pc.from, Generating),
              Generating, Stage(Generating))
    case Advance(h) =>
      var x := s.handlers[h];
      var to := NextStage(x.pc.at);
      Swapped(s, h, x.pc.at, Transitioned(s.jobs, x.msg.jobId, x.pc.at, to), to, Stage(to))
    case Hiccup(h) => Go(s, h, Rescheduling(s.handlers[h].pc.at))
    case Refuse(h, code, now) =>
      var x := s.handlers[h];
      Swapped(s, h, x.pc.at, SetFailed(s.jobs, x.msg.jobId, x.pc.at, code, now), Failed, Completing(Finished))
    case StoreResult(h, rows, now, p) => AfterStore(c, s, h, rows, now, p)
    case Succeed(h) =>
      var x := s.handlers[h];
      Swapped(s, h, Executing,
              SetSucceeded(s.jobs, x.msg.jobId, Executing, x.pc.rows, x.pc.now, x.pc.now + c.resultTTL),
              Succeeded, Completing(Finished))
    case SendNext(h, p) => AfterSendNext(c, s, h, p)
    case RecordRetry(h, at) =>
      var x := s.handlers[h];
      Swapped(s, h, x.pc.from,
              SetRetrying(s.jobs, x.msg.jobId, x.pc.from, NextAttempt(x.attempt), at), Retrying, MarkingRetry)
    case RecordDead(h, now) =>
      var x := s.handlers[h];
      Swapped(s, h, x.pc.from,
              SetFailed(s.jobs, x.msg.jobId, x.pc.from, MaxRetriesExceeded, now), Failed, Completing(DeadLettered))
    case MarkRetry(h) => AfterMarkRetry(s, h)
    case MarkDone(h, now) => AfterMarkDone(s, h, now)
    case Ack(h) => s.(inFlight := Acked(s, h), handlers := s.handlers - {h})
  }

  // CreateAndEnqueue: insert pending, move to queued, commit with the outbox row.
  function AfterSubmit(s: State, j: JobId, m: MessageId, owner: nat): State {
    s.(jobs := Transitioned(s.jobs[j := PendingJob(owner)], j, Pending, Queued),
       ids := s.ids[j := m],
       log := s.log.(path := s.log.path[j := [Pending, Queued]], entries := s.log.entries[j := 0]))
  }

  function AfterSurface(s: State, w: Late): State {
    var t := s.(wire := s.wire - multiset{w});
    if w.dead then t.(dlq := t.dlq + {w.msg}) else Enqueue(t, w.msg, RetryQueue)
  }

  function AfterDeliver(s: State, q: Seq): State
    requires q in s.inFlight
  {
    s.(inFlight := s.inFlight[q := s.inFlight[q].(place := Unacked(s.nextHandler))],
       handlers := s.handlers[s.nextHandler := Handler(q, s.inFlight[q].msg, 0, 0, false, Received)],
       nextHandler := s.nextHandler + 1)
  }

  function AfterClaim(s: State, h: HandlerId, now: Time): State
    requires h in s.handlers
  {
    var x := s.handlers[h];
    var m := x.msg;
    if !ValidEnvelope(m) then Go(s, h, Rejecting)
    else
      var attempt := ExtractAttempt(m.attempt).value;
      var verdict := Pm.Verdict(s.pm, m.messageId, m.kind, m.jobId, s.clock);
      s.(pm := Pm.Claimed(s.pm, m.messageId, m.kind, m.jobId, WrapUint8(attempt), now, s.clock, s.nextToken),
         nextToken := s.nextToken + 1,
         handlers := s.handlers[h := x.(attempt := attempt, token := s.nextToken, pc := AfterVerdict(verdict))])
  }

  function AfterVerdict(v: Pm.ClaimResult): Pc {
    match v
    case AlreadyDone => Acking(false)
    case LeaseHeld => Deferring
    case Conflict => Rejecting
    case _ => Loading
  }

  function AfterRenew(s: State, h: HandlerId, now: Time): State
    requires h in s.handlers
  {
    var x := s.handlers[h];
    if Pm.HoldsProcessing(s.pm, x.msg.messageId, x.token)
    then s.(pm := Pm.Renewed(s.pm, x.msg.messageId, x.token, now))
    else s.(handlers := s.handlers[h := x.(leaseLost := true)])
  }

  function AfterMarkRetry(s: State, h: HandlerId): State
    requires h in s.handlers
  {
    var x := s.handlers[h];
    Go(s.(pm := Pm.MarkedRetry(s.pm, x.msg.messageId, x.token)), h,
       if Pm.HoldsProcessing(s.pm, x.msg.messageId, x.token) then Acking(true) else Aborted)
  }

  function AfterMarkDone(s: State, h: HandlerId, now: Time): State
    requires h in s.handlers
  {
    var x := s.handlers[h];
    Go(s.(pm := Pm.MarkedCompleted(s.pm, x.msg.messageId, x.token, now)), h,
       if Pm.Holds(s.pm, x.msg.messageId, x.token) then Acking(false) else Aborted)
  }

  // WorkerService.Process up to its first write: the branch on the row it read.
  function LoadPc(s: State, x: Handler): Pc {
    var j := x.msg.jobId;
    if j !in s.jobs then Orphaned
    else match s.jobs[j].status
      case Succeeded => Completing(WasTerminal)
      case Failed => Completing(WasTerminal)
      case Queued => Entering(Queued)
      case Retrying =>
        if s.jobs[j].attemptCount == x.attempt then Entering(Retrying) else Completing(StaleAttempt)
      case Pending => Aborted
      case stage => Rescheduling(stage)
  }

  function AfterLoad(s: State, h: HandlerId): State
    requires h in s.handlers
  {
    var x := s.handlers[h];
    var pc := LoadPc(s, x);
    var noted := if pc == Completing(StaleAttempt)
                 then s.(log := s.log.(stale := s.log.stale + {x.msg.jobId})) else s;
    Go(noted, h, pc)
  }

  function AfterStore(c: Config, s: State, h: HandlerId, rows: nat, now: Time, p: Publish): State
    requires h in s.handlers
  {
    var j := s.handlers[h].msg.jobId;
    var written := s.(store := s.store[j := CacheEntry(rows, s.clock + c.resultTTL)],
                      log := s.log.(cached := s.log.cached + {j}));
    match p
    case Confirmed => Go(written, h, Stored(rows, now))
    case EnteredButFailed => Go(written, h, Rescheduling(Executing))
    case NotEntered => Go(s, h, Rescheduling(Executing))
  }

  // scheduleRetryOrFail up to its publish.
  function AfterSendNext(c: Config, s: State, h: HandlerId, p: Publish): State
    requires h in s.handlers && s.handlers[h].pc.Rescheduling?
  {
    var x := s.handlers[h];
    var j := x.msg.jobId;
    if x.attempt + 1 <= c.maxRetries then
      var next := NextAttempt(x.attempt);
      var logged := if p == NotEntered then s else s.(log := s.log.(sent := s.log.sent + {(j, next)}));
      Published(logged, h, WorkerMessage(j, x.msg.messageId, next), p, RetrySent(x.pc.from))
    else
      DeadLetter(s, h, WorkerMessage(j, x.msg.messageId, x.attempt), p, DlqSent(x.pc.from))
  }

  // ---- runs ----------------------------------------------------------------

  // s' is reached from s by performing the labels of ls in order.
  predicate Run(c: Config, s: State, ls: seq<Label>, s': State)
    decreases |ls|
  {
    if ls == [] then s' == s
    else Enabled(s, ls[0]) && Run(c, Apply(c, s, ls[0]), ls[1..], s')
  }

  ghost predicate Reachable(c: Config, s: State) {
    exists ls :: Run(c, Init(), ls, s)
  }

  lemma {:induction false} RunConcat(c: Config, s: State, ls: seq<Label>, t: State, ms: seq<Label>, u: State)
    requires Run(c, s, ls, t) && Run(c, t, ms, u)
    ensures Run(c, s, ls + ms, u)
    decreases |ls|
  {
    hide Apply, Enabled;
    if ls == [] {
      assert ls + ms == ms;
    } else {
      RunConcat(c, Apply(c, s, ls[0]), ls[1..], t, ms, u);
      assert (ls + ms)[1..] == ls[1..] + ms;
    }
  }
}
