// Invariants of every run of Delivery, with crashes, duplicate publishes,
// publish timeouts, lease takeovers and workers that outlive their lease.
module DeliverySafety {
  import opened Options
  import opened JobStatus
  import opened Messages
  import opened QueryJobs
  import opened Delivery
  import Pm = Idempotency

  // ---- the invariant -------------------------------------------------------

  // No message carries more than this attempt.
  function Limit(c: Config): nat {
    if c.maxRetries < 0 then 0 else c.maxRetries
  }

  predicate Terminal(s: State, j: JobId) {
    j in s.jobs && IsTerminal(s.jobs[j].status)
  }

  predicate PmDone(s: State, j: JobId) {
    j in s.ids && s.ids[j] in s.pm && s.pm[s.ids[j]].status == Pm.Completed
  }

  ghost predicate DlqHas(s: State, j: JobId) {
    exists m :: m in s.dlq && m.jobId == j
  }

  // The cached result stays readable until `until`, unless it was evicted.
  predicate Kept(s: State, j: JobId, until: Time) {
    j in s.log.evicted || (j in s.store && until <= s.store[j].liveUntil)
  }

  // Every message in the system is the message of its job.
  predicate MessageOk(c: Config, s: State, m: Message) {
    && m.jobId in s.ids
    && m.messageId == s.ids[m.jobId]
    && ValidEnvelope(m)
    && ExtractAttempt(m.attempt).value <= Limit(c)
  }

  predicate PublishedOk(c: Config, s: State, q: Seq, m: Message) {
    && MessageOk(c, s, m)
    && m.jobId in s.log.newest
    && q <= s.log.newest[m.jobId]
  }

  predicate Superseded(s: State, q: Seq, j: JobId) {
    j in s.log.newest && q < s.log.newest[j]
  }

  ghost predicate PcOk(c: Config, s: State, x: Handler) {
    var j := x.msg.jobId;
    match x.pc
    case Received => true
    case Rejecting => false
    case Deferring => true
    case Loading => true
    case Entering(from) => from == Queued || from == Retrying
    case Stage(at) => IsStage(at)
    case Stored(_, now) => j in s.log.cached && Kept(s, j, now + c.resultTTL)
    case Rescheduling(from) => IsStage(from)
    case RetrySent(from) =>
      IsStage(from) && Superseded(s, x.tag, j) && x.attempt + 1 <= Limit(c) && (j, x.attempt + 1) in s.log.sent
    case DlqSent(from) => IsStage(from) && DlqHas(s, j)
    case Orphaned => false
    case Completing(why) => if why == StaleAttempt then j in s.log.stale else Terminal(s, j)
    case MarkingRetry => Superseded(s, x.tag, j)
    case Acking(handedOff) => if handedOff then Superseded(s, x.tag, j) else PmDone(s, j)
    case Aborted => true
  }

  ghost predicate HandlerOk(c: Config, s: State, x: Handler) {
    && PublishedOk(c, s, x.tag, x.msg)
    && (x.pc != Received ==> x.attempt == ExtractAttempt(x.msg.attempt).value && x.token < s.nextToken)
    && PcOk(c, s, x)
  }

  ghost predicate RowOk(c: Config, s: State, j: JobId, r: Job) {
    && r.status != Pending
    && r.attemptCount <= Limit(c)
    && (!IsTerminal(r.status) ==>
          r.errorCode == None && r.rowCount == None && r.finishedAt == None && r.resultExpiresAt == None)
    && (r.status == Retrying ==> (j, r.attemptCount) in s.log.sent)
    && (r.status == Failed ==>
          && r.errorCode.Some? && r.finishedAt.Some? && r.rowCount == None && r.resultExpiresAt == None
          && (r.errorCode.value == MaxRetriesExceeded ==> DlqHas(s, j)))
    && (r.status == Succeeded ==>
          && r.errorCode == None && r.finishedAt.Some? && r.rowCount.Some? && r.resultExpiresAt.Some?
          && r.resultExpiresAt.value == r.finishedAt.value + c.resultTTL
          && j in s.log.cached && Kept(s, j, r.resultExpiresAt.value))
  }

  ghost predicate PathOk(s: State, j: JobId) {
    && j in s.jobs && j in s.log.path
    && |s.log.path[j]| > 0
    && s.log.path[j][0] == Pending
    && s.log.path[j][|s.log.path[j]| - 1] == s.jobs[j].status
    && IsPath(s.log.path[j])
  }

  predicate PmRowOk(s: State, m: MessageId, row: Pm.ProcessedMessage) {
    && row.kind == QueryExecutionRequested
    && row.jobId in s.ids && s.ids[row.jobId] == m
    && row.token < s.nextToken
    && (row.status == Pm.Completed ==> Terminal(s, row.jobId) || row.jobId in s.log.stale)
  }

  ghost predicate Ids(s: State) {
    && s.ids.Keys == s.jobs.Keys
    && (forall j, k :: j in s.ids && k in s.ids && s.ids[j] == s.ids[k] ==> j == k)
  }

  ghost predicate Handlers(c: Config, s: State) {
    && (forall h :: h in s.handlers ==> h < s.nextHandler && HandlerOk(c, s, s.handlers[h]))
  }

  ghost predicate Envelopes(c: Config, s: State) {
    && (forall q :: q in s.inFlight ==> q < s.nextSeq && PublishedOk(c, s, q, s.inFlight[q].msg))
    && (forall q :: q in s.inFlight && s.inFlight[q].place.Unacked? ==>
          s.inFlight[q].place.holder in s.handlers && s.handlers[s.inFlight[q].place.holder].tag == q
          && s.handlers[s.inFlight[q].place.holder].msg == s.inFlight[q].msg)
    && (forall w :: w in s.wire && !w.dead ==> MessageOk(c, s, w.msg))
  }

  ghost predicate Jobs(c: Config, s: State) {
    forall j :: j in s.jobs ==> j != 0 && RowOk(c, s, j, s.jobs[j]) && PathOk(s, j)
  }

  ghost predicate PmRows(s: State) {
    forall m :: m in s.pm ==> PmRowOk(s, m, s.pm[m])
  }

  // Lease tokens are never shared, and a holder that has not finished finds its row processing.
  ghost predicate Tokens(s: State) {
    && (forall h, g :: h in s.handlers && g in s.handlers && h != g
          && s.handlers[h].pc != Received && s.handlers[g].pc != Received
          ==> s.handlers[h].token != s.handlers[g].token)
    && (forall h :: h in s.handlers && Working(s.handlers[h].pc)
          && Pm.Holds(s.pm, s.handlers[h].msg.messageId, s.handlers[h].token)
          ==> s.pm[s.handlers[h].msg.messageId].status == Pm.Processing)
  }

  predicate Carried(s: State, j: JobId) {
    j in s.log.newest && s.log.newest[j] in s.inFlight && s.inFlight[s.log.newest[j]].msg.jobId == j
  }

  ghost predicate Carriers(s: State) {
    forall j :: j in s.log.newest ==> j in s.ids && s.log.newest[j] < s.nextSeq && (Carried(s, j) || PmDone(s, j))
  }

  ghost predicate Cache(c: Config, s: State) {
    forall j :: j in s.store ==> s.store[j].liveUntil <= s.clock + c.resultTTL
  }

  ghost predicate Inv(c: Config, s: State) {
    && Ids(s) && Handlers(c, s) && Envelopes(c, s) && Jobs(c, s) && PmRows(s)
    && Tokens(s) && Carriers(s) && Cache(c, s)
  }

  // ---- what no step takes back ---------------------------------------------

  ghost predicate Grows(s: State, s': State) {
    && s.clock <= s'.clock && s.nextToken <= s'.nextToken && s.nextSeq <= s'.nextSeq
    && s.nextHandler <= s'.nextHandler
    && (forall j :: j in s.ids ==> j in s'.ids && s'.ids[j] == s.ids[j])
    && (forall j :: j in s.jobs ==> j in s'.jobs)
    && (forall j :: Terminal(s, j) ==> Terminal(s', j) && s'.jobs[j] == s.jobs[j])
    && (forall j :: j in s.log.newest ==> j in s'.log.newest && s.log.newest[j] <= s'.log.newest[j])
    && s.log.sent <= s'.log.sent && s.log.stale <= s'.log.stale
    && s.log.cached <= s'.log.cached && s.dlq <= s'.dlq
    && (forall m :: m in s.pm ==> m in s'.pm && (s.pm[m].status == Pm.Completed ==> s'.pm[m].status == Pm.Completed))
    && (forall j, u :: Kept(s, j, u) ==> Kept(s', j, u))
  }

  lemma HandlerOkGrows(c: Config, s: State, s': State, x: Handler)
    requires Grows(s, s') && HandlerOk(c, s, x)
    ensures HandlerOk(c, s', x)
  {
  }

  lemma RowOkGrows(c: Config, s: State, s': State, j: JobId, r: Job)
    requires Grows(s, s') && RowOk(c, s, j, r)
    ensures RowOk(c, s', j, r)
  {
  }

  lemma PmRowOkGrows(s: State, s': State, m: MessageId, row: Pm.ProcessedMessage)
    requires Grows(s, s') && PmRowOk(s, m, row)
    ensures PmRowOk(s', m, row)
  {
  }

  // ---- frames --------------------------------------------------------------

  // A step of handler h that leaves its delivery, its lease and processed_messages alone.
  predicate HandlerStep(s: State, s': State, h: HandlerId, x': Handler) {
    && h in s.handlers
    && s'.handlers == s.handlers[h := x']
    && x'.tag == s.handlers[h].tag && x'.msg == s.handlers[h].msg
    && x'.token == s.handlers[h].token && s.handlers[h].pc != Received && x'.pc != Received
    && (Working(x'.pc) ==> Working(s.handlers[h].pc))
    && s'.pm == s.pm && s'.ids == s.ids && s'.jobs.Keys == s.jobs.Keys
    && s'.nextHandler == s.nextHandler && s'.nextToken == s.nextToken && s'.clock == s.clock && s'.wire == s.wire
  }

  lemma HandlersFrame(c: Config, s: State, s': State, h: HandlerId, x': Handler)
    requires Grows(s, s') && Handlers(c, s)
    requires s'.handlers == s.handlers[h := x'] && h < s'.nextHandler && HandlerOk(c, s', x')
    ensures Handlers(c, s')
  {
    forall g | g in s'.handlers ensures g < s'.nextHandler && HandlerOk(c, s', s'.handlers[g]) {
      if g != h {
        HandlerOkGrows(c, s, s', s.handlers[g]);
      }
    }
  }

  lemma HandlersSubset(c: Config, s: State, s': State)
    requires Grows(s, s') && Handlers(c, s)
    requires forall g :: g in s'.handlers ==> g in s.handlers && s'.handlers[g] == s.handlers[g]
    ensures Handlers(c, s')
  {
    forall g | g in s'.handlers ensures g < s'.nextHandler && HandlerOk(c, s', s'.handlers[g]) {
      HandlerOkGrows(c, s, s', s.handlers[g]);
    }
  }

  lemma JobsFrame(c: Config, s: State, s': State)
    requires Grows(s, s') && Jobs(c, s) && s'.jobs == s.jobs && s'.log.path == s.log.path
    ensures Jobs(c, s')
  {
    hide IsPath;
    forall j | j in s'.jobs ensures RowOk(c, s', j, s'.jobs[j]) {
      RowOkGrows(c, s, s', j, s.jobs[j]);
    }
  }

  lemma PmRowsFrame(s: State, s': State)
    requires Grows(s, s') && PmRows(s) && s'.pm == s.pm
    ensures PmRows(s')
  {
    forall m | m in s'.pm ensures PmRowOk(s', m, s'.pm[m]) {
      PmRowOkGrows(s, s', m, s.pm[m]);
    }
  }

  // No new publish and no ACK: whatever carried a job still carries it.
  lemma CarriersFrame(s: State, s': State)
    requires Grows(s, s') && Carriers(s) && s'.log.newest == s.log.newest
    requires forall q :: q in s.inFlight ==> q in s'.inFlight && s'.inFlight[q].msg == s.inFlight[q].msg
    ensures Carriers(s')
  {
    forall j | j in s'.log.newest
      ensures j in s'.ids && s'.log.newest[j] < s'.nextSeq && (Carried(s', j) || PmDone(s', j))
    {
      assert PmDone(s, j) ==> PmDone(s', j);
    }
  }

  lemma EnvelopesFrame(c: Config, s: State, s': State, h: HandlerId, x': Handler)
    requires Grows(s, s') && Envelopes(c, s) && HandlerStep(s, s', h, x') && s'.inFlight == s.inFlight
    ensures Envelopes(c, s')
  {
  }

  // A handler step that neither publishes to a queue nor writes the job row.
  lemma QuietStep(c: Config, s: State, s': State, h: HandlerId, x': Handler)
    requires Inv(c, s) && Grows(s, s') && HandlerStep(s, s', h, x') && HandlerOk(c, s', x')
    requires s'.inFlight == s.inFlight && s'.log.newest == s.log.newest
    requires s'.jobs == s.jobs && s'.log.path == s.log.path && Cache(c, s')
    ensures Inv(c, s')
  {
    hide Grows, HandlerOk, RowOk, PathOk, PublishedOk, PmRowOk, Carriers;
    HandlersFrame(c, s, s', h, x') by { hide Envelopes, Jobs, PmRows, Tokens, Cache, Ids; }
    JobsFrame(c, s, s') by { hide Envelopes, Handlers, PmRows, Tokens, Cache, Ids; }
    PmRowsFrame(s, s') by { hide Envelopes, Handlers, Jobs, Tokens, Cache, Ids; }
    CarriersFrame(s, s') by { hide Envelopes, Handlers, Jobs, Tokens, Cache, Ids; }
    EnvelopesFrame(c, s, s', h, x') by { hide Handlers, Jobs, Tokens, Cache, Ids; }
  }

  // ---- one update at a time ------------------------------------------------

  lemma GoKeeps(c: Config, s: State, h: HandlerId, pc: Pc)
    requires Inv(c, s) && h in s.handlers && s.handlers[h].pc != Received && pc != Received
    requires Working(pc) ==> Working(s.handlers[h].pc)
    requires PcOk(c, s, s.handlers[h].(pc := pc))
    ensures Inv(c, Go(s, h, pc)) && Grows(s, Go(s, h, pc))
  {
    hide RowOk, PathOk, PmRowOk, PublishedOk, Carriers, Envelopes, Tokens, Jobs, Ids, PmRows;
    var s', x' := Go(s, h, pc), s.handlers[h].(pc := pc);
    assert Grows(s, s') by { hide Handlers, Cache; }
    assert HandlerOk(c, s, x') by { hide Grows, Cache; }
    HandlerOkGrows(c, s, s', x') by { hide Handlers, PcOk, HandlerOk, Grows, Cache; }
    QuietStep(c, s, s', h, x') by { hide Handlers, PcOk, HandlerOk, Grows; }
  }

  lemma EnqueueGrows(c: Config, s: State, m: Message, place: Place)
    requires Carriers(s) && m.jobId in s.ids
    ensures Grows(s, Enqueue(s, m, place))
  {
  }

  lemma EnqueueEnvelopes(c: Config, s: State, m: Message, place: Place)
    requires Envelopes(c, s) && Carriers(s) && MessageOk(c, s, m) && !place.Unacked?
    ensures Envelopes(c, Enqueue(s, m, place))
  {
    hide ExtractAttempt, ValidEnvelope, PmDone, Carried;
  }

  lemma EnqueueCarriers(c: Config, s: State, m: Message, place: Place)
    requires Carriers(s) && Envelopes(c, s) && m.jobId in s.ids
    ensures Carriers(Enqueue(s, m, place))
  {
    hide PublishedOk;
  }

  // A message enters the main or the retry queue.
  lemma EnqueueKeeps(c: Config, s: State, m: Message, place: Place)
    requires Inv(c, s) && MessageOk(c, s, m) && !place.Unacked?
    ensures Inv(c, Enqueue(s, m, place)) && Grows(s, Enqueue(s, m, place))
  {
    hide RowOk, PathOk, PmRowOk, HandlerOk, Tokens, Ids, Handlers, Jobs, PmRows, Envelopes, Carriers, Cache, ValidEnvelope;
    var s' := Enqueue(s, m, place);
    EnqueueGrows(c, s, m, place);
    EnqueueEnvelopes(c, s, m, place);
    EnqueueCarriers(c, s, m, place);
    hide Grows, MessageOk;
    HandlersSubset(c, s, s');
    JobsFrame(c, s, s');
    PmRowsFrame(s, s');
    assert Ids(s') && Tokens(s') && Cache(c, s') by {
      IdsTokensCacheFrame(c, s, s');
    }
  }

  lemma IdsTokensCacheFrame(c: Config, s: State, s': State)
    requires Ids(s) && Tokens(s) && Cache(c, s)
    requires s'.ids == s.ids && s'.jobs.Keys == s.jobs.Keys && s'.handlers == s.handlers && s'.pm == s.pm
    requires s'.store == s.store && s.clock <= s'.clock
    ensures Ids(s') && Tokens(s') && Cache(c, s')
  {
  }

  // Updates of the history, of the DLQ, which only ever gain members, and of the wire.
  lemma LogKeeps(c: Config, s: State, s': State)
    requires Inv(c, s)
    requires s' == s.(dlq := s'.dlq, wire := s'.wire, log := s.log.(sent := s'.log.sent, stale := s'.log.stale))
    requires s.dlq <= s'.dlq && s.log.sent <= s'.log.sent && s.log.stale <= s'.log.stale
    requires forall w :: w in s'.wire && !w.dead ==> w in s.wire || MessageOk(c, s, w.msg)
    ensures Inv(c, s') && Grows(s, s')
  {
    hide RowOk, PathOk, PmRowOk, HandlerOk, Tokens, Ids, Handlers, Jobs, PmRows, Envelopes, Carriers, Cache;
    assert Grows(s, s');
    hide Grows;
    HandlersSubset(c, s, s');
    JobsFrame(c, s, s');
    PmRowsFrame(s, s');
    CarriersFrame(s, s');
    IdsTokensCacheFrame(c, s, s');
    assert Envelopes(c, s') by { LogEnvelopes(c, s, s'); }
  }

  lemma LogEnvelopes(c: Config, s: State, s': State)
    requires Envelopes(c, s)
    requires s'.inFlight == s.inFlight && s'.ids == s.ids && s'.handlers == s.handlers && s'.nextSeq == s.nextSeq
    requires s'.log.newest == s.log.newest
    requires forall w :: w in s'.wire && !w.dead ==> w in s.wire || MessageOk(c, s, w.msg)
    ensures Envelopes(c, s')
  {
  }

  lemma StoreKeeps(c: Config, s: State, j: JobId, rows: nat)
    requires Inv(c, s)
    ensures var s' := s.(store := s.store[j := CacheEntry(rows, s.clock + c.resultTTL)],
                         log := s.log.(cached := s.log.cached + {j}));
            Inv(c, s') && Grows(s, s')
  {
    hide RowOk, PathOk, PmRowOk, HandlerOk, Tokens, Ids, Handlers, Jobs, PmRows, Envelopes, Carriers;
    var s' := s.(store := s.store[j := CacheEntry(rows, s.clock + c.resultTTL)],
                 log := s.log.(cached := s.log.cached + {j}));
    assert Grows(s, s');
    assert Cache(c, s');
    hide Grows, Cache;
    HandlersSubset(c, s, s');
    JobsFrame(c, s, s');
    PmRowsFrame(s, s');
    CarriersFrame(s, s');
    LogEnvelopes(c, s, s');
    assert Ids(s') && Tokens(s') by {
      IdsTokensCacheFrame(c, s, s'.(store := s.store));
      TokensFrame(s'.(store := s.store), s');
    }
  }

  lemma TokensFrame(s: State, s': State)
    requires Ids(s) && Tokens(s)
    requires s'.ids == s.ids && s'.jobs.Keys == s.jobs.Keys && s'.handlers == s.handlers && s'.pm == s.pm
    ensures Ids(s') && Tokens(s')
  {
  }

  lemma MovedGrows(s: State, j: JobId, after: JobTable, to: Status)
    requires j in s.jobs && !IsTerminal(s.jobs[j].status)
    requires after.Keys == s.jobs.Keys && forall k :: k in s.jobs && k != j ==> after[k] == s.jobs[k]
    ensures Grows(s, Moved(s, j, after, to))
  {
  }

  lemma MovedPath(s: State, j: JobId, after: JobTable, to: Status)
    requires PathOk(s, j) && j in after && after[j].status == to && Allowed(s.jobs[j].status, to)
    ensures PathOk(Moved(s, j, after, to), j)
  {
    PathExtends(s.log.path[j], to);
  }

  lemma MovedJobs(c: Config, s: State, j: JobId, after: JobTable, to: Status)
    requires Jobs(c, s) && Grows(s, Moved(s, j, after, to))
    requires j in s.jobs && after.Keys == s.jobs.Keys
    requires forall k :: k in s.jobs && k != j ==> after[k] == s.jobs[k]
    requires after[j].status == to && Allowed(s.jobs[j].status, to) && RowOk(c, s, j, after[j])
    ensures Jobs(c, Moved(s, j, after, to))
  {
    hide RowOk, Grows, IsPath, Allowed;
    var s' := Moved(s, j, after, to);
    MovedPath(s, j, after, to);
    forall k | k in s'.jobs ensures k != 0 && RowOk(c, s', k, s'.jobs[k]) && PathOk(s', k) {
      RowOkGrows(c, s, s', k, s'.jobs[k]);
    }
  }

  lemma AllowedIsLive(from: Status, to: Status)
    requires Allowed(from, to)
    ensures !IsTerminal(from)
  {
  }

  // A job row moves along the transition table.
  lemma MovedKeeps(c: Config, s: State, j: JobId, after: JobTable, to: Status)
    requires Inv(c, s) && j in s.jobs && after.Keys == s.jobs.Keys
    requires forall k :: k in s.jobs && k != j ==> after[k] == s.jobs[k]
    requires after[j].status == to && Allowed(s.jobs[j].status, to) && RowOk(c, s, j, after[j])
    ensures Inv(c, Moved(s, j, after, to)) && Grows(s, Moved(s, j, after, to))
  {
    hide RowOk, PathOk, PmRowOk, HandlerOk, Tokens, Ids, Handlers, Jobs, PmRows, Envelopes, Carriers, Cache, Allowed,
         IsTerminal;
    var s' := Moved(s, j, after, to);
    AllowedIsLive(s.jobs[j].status, to);
    MovedGrows(s, j, after, to);
    hide Grows;
    MovedJobs(c, s, j, after, to);
    HandlersSubset(c, s, s');
    PmRowsFrame(s, s');
    CarriersFrame(s, s');
    IdsTokensCacheFrame(c, s, s');
    LogEnvelopes(c, s, s');
  }

  // ---- handler steps -------------------------------------------------------

  lemma PublishedKeeps(c: Config, s: State, h: HandlerId, m: Message, p: Publish, pc: Pc)
    requires Inv(c, s) && h in s.handlers && s.handlers[h].pc != Received && pc != Received
    requires MessageOk(c, s, m) && m.jobId == s.handlers[h].msg.jobId
    requires Working(pc) ==> Working(s.handlers[h].pc)
    requires p == Confirmed ==> PcOk(c, Enqueue(s, m, RetryQueue), s.handlers[h].(pc := pc))
    ensures Inv(c, Published(s, h, m, p, pc)) && Grows(s, Published(s, h, m, p, pc))
  {
    hide Inv, PcOk, MessageOk;
    var t := Enqueue(s, m, RetryQueue);
    if p != NotEntered {
      EnqueueKeeps(c, s, m, RetryQueue);
    }
    match p {
      case Confirmed =>
        GoKeeps(c, t, h, pc);
        GrowsTransitive(s, t, Published(s, h, m, p, pc));
      case EnteredButFailed =>
        AbortOk(c, t, h);
        GoKeeps(c, t, h, Aborted);
        GrowsTransitive(s, t, Published(s, h, m, p, pc));
      case NotEntered =>
        var u := s.(wire := s.wire + multiset{Late(m, false)});
        LogKeeps(c, s, u);
        AbortOk(c, u, h);
        GoKeeps(c, u, h, Aborted);
        GrowsTransitive(s, u, Published(s, h, m, p, pc));
    }
  }

  lemma AbortOk(c: Config, s: State, h: HandlerId)
    requires h in s.handlers
    ensures PcOk(c, s, s.handlers[h].(pc := Aborted))
  {
  }

  lemma GrowsTransitive(s: State, t: State, u: State)
    requires Grows(s, t) && Grows(t, u)
    ensures Grows(s, u)
  {
  }

  lemma DeadLetterKeeps(c: Config, s: State, h: HandlerId, m: Message, p: Publish, pc: Pc)
    requires Inv(c, s) && h in s.handlers && s.handlers[h].pc != Received && pc != Received
    requires Working(pc) ==> Working(s.handlers[h].pc)
    requires p == Confirmed ==> PcOk(c, s.(dlq := s.dlq + {m}), s.handlers[h].(pc := pc))
    ensures Inv(c, DeadLetter(s, h, m, p, pc)) && Grows(s, DeadLetter(s, h, m, p, pc))
  {
    hide Inv, PcOk;
    var t := s.(dlq := s.dlq + {m});
    if p != NotEntered {
      LogKeeps(c, s, t);
    }
    match p {
      case Confirmed =>
        GoKeeps(c, t, h, pc);
        GrowsTransitive(s, t, DeadLetter(s, h, m, p, pc));
      case EnteredButFailed =>
        AbortOk(c, t, h);
        GoKeeps(c, t, h, Aborted);
        GrowsTransitive(s, t, DeadLetter(s, h, m, p, pc));
      case NotEntered =>
        var u := s.(wire := s.wire + multiset{Late(m, true)});
        LogKeeps(c, s, u);
        AbortOk(c, u, h);
        GoKeeps(c, u, h, Aborted);
        GrowsTransitive(s, u, DeadLetter(s, h, m, p, pc));
    }
  }

  lemma SwappedKeeps(c: Config, s: State, h: HandlerId, from: Status, after: JobTable, to: Status, pc: Pc)
    requires Inv(c, s) && h in s.handlers && Working(s.handlers[h].pc) && pc != Received
    requires Matches(s.jobs, s.handlers[h].msg.jobId, from) ==>
               var j := s.handlers[h].msg.jobId;
               && after.Keys == s.jobs.Keys && (forall k :: k in s.jobs && k != j ==> after[k] == s.jobs[k])
               && after[j].status == to && Allowed(from, to) && RowOk(c, s, j, after[j])
    requires match pc
             case Stage(at) => at == to && IsStage(to)
             case Completing(why) => (why == Finished || why == DeadLettered) && IsTerminal(to)
             case MarkingRetry => Superseded(s, s.handlers[h].tag, s.handlers[h].msg.jobId)
             case _ => false
    ensures Inv(c, Swapped(s, h, from, after, to, pc)) && Grows(s, Swapped(s, h, from, after, to, pc))
  {
    hide Inv, RowOk, Allowed;
    var j := s.handlers[h].msg.jobId;
    if Matches(s.jobs, j, from) {
      var t := Moved(s, j, after, to);
      MovedKeeps(c, s, j, after, to);
      GoKeeps(c, t, h, pc);
      GrowsTransitive(s, t, Swapped(s, h, from, after, to, pc));
    } else {
      AbortOk(c, s, h);
      GoKeeps(c, s, h, Aborted);
    }
  }

  // The copy a worker publishes is again a message of its job.
  lemma WorkerMessageOk(c: Config, s: State, x: Handler, attempt: nat)
    requires c.maxRetries <= MAX_SANE_ATTEMPT
    requires HandlerOk(c, s, x) && attempt <= Limit(c)
    ensures MessageOk(c, s, WorkerMessage(x.msg.jobId, x.msg.messageId, attempt))
  {
  }

  lemma EnqueueSupersedes(c: Config, s: State, x: Handler, m: Message)
    requires Carriers(s) && HandlerOk(c, s, x) && m.jobId == x.msg.jobId
    ensures Superseded(Enqueue(s, m, RetryQueue), x.tag, m.jobId)
  {
  }

  lemma HandlerFacts(c: Config, s: State, h: HandlerId)
    requires Inv(c, s) && h in s.handlers
    ensures HandlerOk(c, s, s.handlers[h]) && PcOk(c, s, s.handlers[h])
    ensures s.handlers[h].msg.jobId in s.jobs
    ensures RowOk(c, s, s.handlers[h].msg.jobId, s.jobs[s.handlers[h].msg.jobId])
  {
    hide RowOk, PathOk, PmRows, Envelopes, Tokens, Carriers, Cache, PcOk;
  }

  lemma InvCarriers(c: Config, s: State)
    requires Inv(c, s)
    ensures Carriers(s)
  {
    hide Ids, Handlers, Envelopes, Jobs, PmRows, Tokens, Carriers, Cache;
  }

  lemma DeferKeeps(c: Config, s: State, h: HandlerId, p: Publish)
    requires c.maxRetries <= MAX_SANE_ATTEMPT && Inv(c, s) && Enabled(s, Defer(h, p))
    ensures Inv(c, Apply(c, s, Defer(h, p))) && Grows(s, Apply(c, s, Defer(h, p)))
  {
    hide Inv, Grows, RowOk, WrapInt32;
    var x := s.handlers[h];
    var m := WorkerMessage(x.msg.jobId, x.msg.messageId, x.attempt);
    assert Apply(c, s, Defer(h, p)) == Published(s, h, m, p, Acking(true));
    HandlerFacts(c, s, h);
    assert x.attempt <= Limit(c);
    WorkerMessageOk(c, s, x, x.attempt);
    InvCarriers(c, s);
    EnqueueSupersedes(c, s, x, m);
    hide HandlerOk, MessageOk, Published, WorkerMessage, Superseded, Apply;
    PublishedKeeps(c, s, h, m, p, Acking(true));
  }

  lemma NextAttemptExact(c: Config, attempt: nat)
    requires c.maxRetries <= MAX_SANE_ATTEMPT && attempt + 1 <= c.maxRetries
    ensures NextAttempt(attempt) == attempt + 1 <= Limit(c)
  {
  }

  lemma SendRetryKeeps(c: Config, s: State, h: HandlerId, p: Publish)
    requires c.maxRetries <= MAX_SANE_ATTEMPT && Inv(c, s)
    requires h in s.handlers && s.handlers[h].pc.Rescheduling? && s.handlers[h].attempt + 1 <= c.maxRetries
    ensures Inv(c, AfterSendNext(c, s, h, p)) && Grows(s, AfterSendNext(c, s, h, p))
  {
    hide Inv, Grows, PublishedOk, RowOk, WrapInt32, WrapUint8;
    var x := s.handlers[h];
    var j, next := x.msg.jobId, NextAttempt(x.attempt);
    var m := WorkerMessage(j, x.msg.messageId, next);
    var t := if p == NotEntered then s else s.(log := s.log.(sent := s.log.sent + {(j, next)}));
    assert AfterSendNext(c, s, h, p) == Published(t, h, m, p, RetrySent(x.pc.from));
    HandlerFacts(c, s, h);
    NextAttemptExact(c, x.attempt);
    hide AfterSendNext, NextAttempt;
    LogKeeps(c, s, t);
    HandlerOkGrows(c, s, t, x);
    WorkerMessageOk(c, t, x, next);
    InvCarriers(c, t);
    EnqueueSupersedes(c, t, x, m);
    assert p == Confirmed ==> PcOk(c, Enqueue(t, m, RetryQueue), x.(pc := RetrySent(x.pc.from)));
    hide PcOk, HandlerOk, MessageOk, Published, WorkerMessage, Superseded;
    PublishedKeeps(c, t, h, m, p, RetrySent(x.pc.from));
    GrowsTransitive(s, t, Published(t, h, m, p, RetrySent(x.pc.from)));
  }

  lemma SendDeadKeeps(c: Config, s: State, h: HandlerId, p: Publish)
    requires Inv(c, s)
    requires h in s.handlers && s.handlers[h].pc.Rescheduling? && s.handlers[h].attempt + 1 > c.maxRetries
    ensures Inv(c, AfterSendNext(c, s, h, p)) && Grows(s, AfterSendNext(c, s, h, p))
  {
    hide Inv, Grows, PublishedOk, RowOk, WrapInt32, WrapUint8;
    var x := s.handlers[h];
    var m := WorkerMessage(x.msg.jobId, x.msg.messageId, x.attempt);
    HandlerFacts(c, s, h);
    assert m in s.dlq + {m};
    assert PcOk(c, s.(dlq := s.dlq + {m}), x.(pc := DlqSent(x.pc.from)));
    assert AfterSendNext(c, s, h, p) == DeadLetter(s, h, m, p, DlqSent(x.pc.from));
    hide PcOk, HandlerOk, DeadLetter, AfterSendNext;
    DeadLetterKeeps(c, s, h, m, p, DlqSent(x.pc.from));
  }

  lemma LoadKeeps(c: Config, s: State, h: HandlerId)
    requires Inv(c, s) && Enabled(s, Load(h))
    ensures Inv(c, Apply(c, s, Load(h))) && Grows(s, Apply(c, s, Load(h)))
  {
    hide Inv, Grows, PublishedOk, Kept;
    var x := s.handlers[h];
    HandlerFacts(c, s, h);
    var pc := LoadPc(s, x);
    var t := if pc == Completing(StaleAttempt)
             then s.(log := s.log.(stale := s.log.stale + {x.msg.jobId})) else s;
    assert PcOk(c, t, x.(pc := pc));
    assert Apply(c, s, Load(h)) == Go(t, h, pc);
    hide RowOk, HandlerOk, PcOk, LoadPc, Go, Apply;
    LogKeeps(c, s, t);
    GoKeeps(c, t, h, pc);
    GrowsTransitive(s, t, Go(t, h, pc));
  }

  // The rows the five compare-and-set updates write.
  lemma StageRow(c: Config, s: State, j: JobId, r: Job, to: Status)
    requires RowOk(c, s, j, r) && !IsTerminal(r.status) && IsStage(to)
    ensures RowOk(c, s, j, r.(status := to))
  {
  }

  lemma RetryingRow(c: Config, s: State, j: JobId, r: Job, n: nat, at: Time)
    requires RowOk(c, s, j, r) && !IsTerminal(r.status) && (j, n) in s.log.sent && n <= Limit(c)
    ensures RowOk(c, s, j, r.(status := Retrying, attemptCount := n, nextRetryAt := Some(at)))
  {
  }

  lemma FailedRow(c: Config, s: State, j: JobId, r: Job, code: ErrorCode, now: Time)
    requires RowOk(c, s, j, r) && !IsTerminal(r.status) && (code == MaxRetriesExceeded ==> DlqHas(s, j))
    ensures RowOk(c, s, j, r.(status := Failed, errorCode := Some(code), finishedAt := Some(now)))
  {
  }

  lemma SucceededRow(c: Config, s: State, j: JobId, r: Job, rows: nat, now: Time, until: Time)
    requires RowOk(c, s, j, r) && !IsTerminal(r.status) && j in s.log.cached && Kept(s, j, until)
    requires until == now + c.resultTTL
    ensures RowOk(c, s, j, r.(status := Succeeded, rowCount := Some(rows),
                              finishedAt := Some(now), resultExpiresAt := Some(until)))
  {
  }

  lemma EnterKeeps(c: Config, s: State, h: HandlerId)
    requires Inv(c, s) && (h in s.handlers && s.handlers[h].pc.Entering?)
    ensures var x, j := s.handlers[h], s.handlers[h].msg.jobId;
            var s' := Swapped(s, h, x.pc.from, Transitioned(s.jobs, j, x.pc.from, Generating), Generating, Stage(Generating));
            Inv(c, s') && Grows(s, s')
  {
    hide Inv, Grows, RowOk, HandlerOk, Swapped, Kept;
    var x, j := s.handlers[h], s.handlers[h].msg.jobId;
    HandlerFacts(c, s, h);
    if Matches(s.jobs, j, x.pc.from) {
      StageRow(c, s, j, s.jobs[j], Generating);
    }
    SwappedKeeps(c, s, h, x.pc.from, Transitioned(s.jobs, j, x.pc.from, Generating),
                 Generating, Stage(Generating));
  }

  lemma AdvanceKeeps(c: Config, s: State, h: HandlerId)
    requires Inv(c, s) && (At(s, h, Stage(Generating)) || At(s, h, Stage(Validating)))
    ensures var x, j := s.handlers[h], s.handlers[h].msg.jobId;
            var s' := Swapped(s, h, x.pc.at, Transitioned(s.jobs, j, x.pc.at, NextStage(x.pc.at)),
                              NextStage(x.pc.at), Stage(NextStage(x.pc.at)));
            Inv(c, s') && Grows(s, s')
  {
    hide Inv, Grows, RowOk, HandlerOk, Swapped, Kept;
    var x, j := s.handlers[h], s.handlers[h].msg.jobId;
    HandlerFacts(c, s, h);
    if Matches(s.jobs, j, x.pc.at) {
      StageRow(c, s, j, s.jobs[j], NextStage(x.pc.at));
    }
    SwappedKeeps(c, s, h, x.pc.at, Transitioned(s.jobs, j, x.pc.at, NextStage(x.pc.at)),
                 NextStage(x.pc.at), Stage(NextStage(x.pc.at)));
  }

  lemma HiccupKeeps(c: Config, s: State, h: HandlerId)
    requires Inv(c, s) && Enabled(s, Hiccup(h))
    ensures Inv(c, Apply(c, s, Hiccup(h))) && Grows(s, Apply(c, s, Hiccup(h)))
  {
    hide PmRows, Envelopes, Tokens, Grows, Carriers, Jobs;
    assert HandlerOk(c, s, s.handlers[h]);
    hide Handlers;
    GoKeeps(c, s, h, Rescheduling(s.handlers[h].pc.at));
  }

  lemma RefuseKeeps(c: Config, s: State, h: HandlerId, code: ErrorCode, now: Time)
    requires Inv(c, s) && (h in s.handlers && s.handlers[h].pc.Stage? && code != MaxRetriesExceeded)
    ensures var x, j := s.handlers[h], s.handlers[h].msg.jobId;
            var s' := Swapped(s, h, x.pc.at, SetFailed(s.jobs, j, x.pc.at, code, now), Failed, Completing(Finished));
            Inv(c, s') && Grows(s, s')
  {
    hide Inv, Grows, RowOk, HandlerOk, Swapped, Kept;
    var x, j := s.handlers[h], s.handlers[h].msg.jobId;
    HandlerFacts(c, s, h);
    if Matches(s.jobs, j, x.pc.at) {
      FailedRow(c, s, j, s.jobs[j], code, now);
    }
    SwappedKeeps(c, s, h, x.pc.at, SetFailed(s.jobs, j, x.pc.at, code, now),
                 Failed, Completing(Finished));
  }

  lemma StoreResultKeeps(c: Config, s: State, h: HandlerId, rows: nat, now: Time, p: Publish)
    requires Inv(c, s) && Enabled(s, StoreResult(h, rows, now, p))
    ensures Inv(c, Apply(c, s, StoreResult(h, rows, now, p))) && Grows(s, Apply(c, s, StoreResult(h, rows, now, p)))
  {
    hide PmRows, Envelopes, Tokens, Grows, Carriers, Jobs, Cache, Ids, Handlers;
    var j := s.handlers[h].msg.jobId;
    var t := s.(store := s.store[j := CacheEntry(rows, s.clock + c.resultTTL)],
                log := s.log.(cached := s.log.cached + {j}));
    StoreKeeps(c, s, j, rows);
    var s' := Apply(c, s, StoreResult(h, rows, now, p));
    match p {
      case Confirmed => GoKeeps(c, t, h, Stored(rows, now)); GrowsTransitive(s, t, s');
      case EnteredButFailed => GoKeeps(c, t, h, Rescheduling(Executing)); GrowsTransitive(s, t, s');
      case NotEntered => GoKeeps(c, s, h, Rescheduling(Executing));
    }
  }

  lemma SucceedKeeps(c: Config, s: State, h: HandlerId)
    requires Inv(c, s) && (h in s.handlers && s.handlers[h].pc.Stored?)
    ensures var x, j := s.handlers[h], s.handlers[h].msg.jobId;
            var s' := Swapped(s, h, Executing,
                              SetSucceeded(s.jobs, j, Executing, x.pc.rows, x.pc.now, x.pc.now + c.resultTTL),
                              Succeeded, Completing(Finished));
            Inv(c, s') && Grows(s, s')
  {
    hide Inv, Grows, RowOk, HandlerOk, Swapped, Kept;
    var x, j := s.handlers[h], s.handlers[h].msg.jobId;
    HandlerFacts(c, s, h);
    if Matches(s.jobs, j, Executing) {
      SucceededRow(c, s, j, s.jobs[j], x.pc.rows, x.pc.now, x.pc.now + c.resultTTL);
    }
    SwappedKeeps(c, s, h, Executing, SetSucceeded(s.jobs, j, Executing, x.pc.rows, x.pc.now, x.pc.now + c.resultTTL),
                 Succeeded, Completing(Finished));
  }

  lemma RecordRetryKeeps(c: Config, s: State, h: HandlerId, at: Time)
    requires Inv(c, s) && (c.maxRetries <= MAX_SANE_ATTEMPT && h in s.handlers && s.handlers[h].pc.RetrySent?)
    ensures var x, j := s.handlers[h], s.handlers[h].msg.jobId;
            var s' := Swapped(s, h, x.pc.from, SetRetrying(s.jobs, j, x.pc.from, NextAttempt(x.attempt), at),
                              Retrying, MarkingRetry);
            Inv(c, s') && Grows(s, s')
  {
    hide Inv, Grows, RowOk, HandlerOk, Swapped, Kept, NextAttempt;
    var x, j := s.handlers[h], s.handlers[h].msg.jobId;
    HandlerFacts(c, s, h);
    NextAttemptExact(c, x.attempt);
    if Matches(s.jobs, j, x.pc.from) {
      RetryingRow(c, s, j, s.jobs[j], NextAttempt(x.attempt), at);
    }
    SwappedKeeps(c, s, h, x.pc.from, SetRetrying(s.jobs, j, x.pc.from, NextAttempt(x.attempt), at),
                 Retrying, MarkingRetry);
  }

  lemma RecordDeadKeeps(c: Config, s: State, h: HandlerId, now: Time)
    requires Inv(c, s) && (h in s.handlers && s.handlers[h].pc.DlqSent?)
    ensures var x, j := s.handlers[h], s.handlers[h].msg.jobId;
            var s' := Swapped(s, h, x.pc.from, SetFailed(s.jobs, j, x.pc.from, MaxRetriesExceeded, now),
                              Failed, Completing(DeadLettered));
            Inv(c, s') && Grows(s, s')
  {
    hide Inv, Grows, RowOk, HandlerOk, Swapped, Kept;
    var x, j := s.handlers[h], s.handlers[h].msg.jobId;
    HandlerFacts(c, s, h);
    if Matches(s.jobs, j, x.pc.from) {
      FailedRow(c, s, j, s.jobs[j], MaxRetriesExceeded, now);
    }
    SwappedKeeps(c, s, h, x.pc.from, SetFailed(s.jobs, j, x.pc.from, MaxRetriesExceeded, now),
                 Failed, Completing(DeadLettered));
  }

  // ---- steps on processed_messages -----------------------------------------

  // The row under a message id of the system is the row of that message's job.
  lemma OneIdentity(c: Config, s: State, m: Message)
    requires Ids(s) && PmRows(s) && MessageOk(c, s, m)
    ensures m.messageId in s.pm ==> Pm.SameJob(s.pm[m.messageId], m.kind, m.jobId)
    ensures forall n :: n in s.pm && Pm.SameJob(s.pm[n], m.kind, m.jobId) ==> n == m.messageId
  {
  }

  // What the four lease operations share: row m may change, nothing completed is undone.
  ghost predicate PmEdit(s: State, s': State, h: HandlerId, x': Handler) {
    && h in s.handlers
    && var m := s.handlers[h].msg.messageId;
    && s'.handlers == s.handlers[h := x']
    && x'.tag == s.handlers[h].tag && x'.msg == s.handlers[h].msg
    && s'.ids == s.ids && s'.jobs == s.jobs && s'.inFlight == s.inFlight && s'.store == s.store && s'.log == s.log
    && s'.dlq == s.dlq && s'.wire == s.wire && s'.clock == s.clock && s'.nextSeq == s.nextSeq && s'.nextHandler == s.nextHandler
    && s.nextToken <= s'.nextToken
    && (forall n :: n in s.pm ==> n in s'.pm)
    && (forall n :: n in s'.pm && n != m ==> n in s.pm && s'.pm[n] == s.pm[n])
    && (m in s.pm && s.pm[m].status == Pm.Completed ==> s'.pm[m].status == Pm.Completed)
  }

  lemma PmEditGrows(s: State, s': State, h: HandlerId, x': Handler)
    requires PmEdit(s, s', h, x')
    ensures Grows(s, s')
  {
  }

  lemma PmEditRows(s: State, s': State, h: HandlerId, x': Handler)
    requires PmEdit(s, s', h, x') && Grows(s, s') && PmRows(s)
    requires s.handlers[h].msg.messageId in s'.pm ==>
               PmRowOk(s', s.handlers[h].msg.messageId, s'.pm[s.handlers[h].msg.messageId])
    ensures PmRows(s')
  {
    hide Grows;
    forall n | n in s'.pm ensures PmRowOk(s', n, s'.pm[n]) {
      if n != s.handlers[h].msg.messageId {
        PmRowOkGrows(s, s', n, s.pm[n]);
      }
    }
  }

  lemma PmEditEnvelopes(c: Config, s: State, s': State, h: HandlerId, x': Handler)
    requires PmEdit(s, s', h, x') && Envelopes(c, s)
    ensures Envelopes(c, s')
  {
    hide ExtractAttempt, ValidEnvelope;
  }

  lemma PmEditKeeps(c: Config, s: State, s': State, h: HandlerId, x': Handler)
    requires Inv(c, s) && PmEdit(s, s', h, x')
    requires s.handlers[h].msg.messageId in s'.pm ==>
               PmRowOk(s', s.handlers[h].msg.messageId, s'.pm[s.handlers[h].msg.messageId])
    requires HandlerOk(c, s', x') && Tokens(s')
    ensures Inv(c, s') && Grows(s, s')
  {
    hide RowOk, PathOk, PmRowOk, HandlerOk, Tokens, Jobs, PmRows, Carriers, Grows, Envelopes;
    PmEditGrows(s, s', h, x');
    PmEditRows(s, s', h, x');
    PmEditEnvelopes(c, s, s', h, x');
    HandlersFrame(c, s, s', h, x');
    JobsFrame(c, s, s');
    CarriersFrame(s, s');
  }

  // Renew, MarkRetryScheduled and MarkCompleted: without the current token the
  // table is untouched, and the token itself never changes.
  ghost predicate Authenticated(s: State, s': State, h: HandlerId, x': Handler) {
    && PmEdit(s, s', h, x')
    && var x, m := s.handlers[h], s.handlers[h].msg.messageId;
    && x' == x.(pc := x'.pc, leaseLost := x'.leaseLost)
    && Working(x.pc) && x'.pc != Received && s'.nextToken == s.nextToken
    && (s'.pm == s.pm
        || (m in s.pm && s.pm[m].token == x.token
            && s'.pm[m].token == s.pm[m].token && s'.pm[m].jobId == s.pm[m].jobId && s'.pm[m].kind == s.pm[m].kind
            && (Working(x'.pc) ==> s'.pm[m].status == s.pm[m].status)))
  }

  lemma AuthenticatedTokens(s: State, s': State, h: HandlerId, x': Handler)
    requires Authenticated(s, s', h, x') && Tokens(s)
    ensures Tokens(s')
  {
  }

  lemma AuthenticatedRow(s: State, s': State, h: HandlerId, x': Handler)
    requires Authenticated(s, s', h, x') && PmRows(s) && Grows(s, s')
    requires var m := s.handlers[h].msg.messageId;
             m in s'.pm && s'.pm[m].status == Pm.Completed ==>
               Terminal(s', s'.pm[m].jobId) || s'.pm[m].jobId in s.log.stale || s'.pm == s.pm
    ensures s.handlers[h].msg.messageId in s'.pm ==>
              PmRowOk(s', s.handlers[h].msg.messageId, s'.pm[s.handlers[h].msg.messageId])
  {
  }

  lemma AuthenticatedHandler(c: Config, s: State, s': State, h: HandlerId, x': Handler)
    requires Authenticated(s, s', h, x') && HandlerOk(c, s, s.handlers[h]) && Grows(s, s')
    requires x'.pc == s.handlers[h].pc || PcOk(c, s', x')
    ensures HandlerOk(c, s', x')
  {
    HandlerOkGrows(c, s, s', s.handlers[h]);
    hide Grows, PublishedOk, PmEdit;
  }

  lemma AuthenticatedKeeps(c: Config, s: State, s': State, h: HandlerId, x': Handler)
    requires Inv(c, s) && Authenticated(s, s', h, x')
    requires var m := s.handlers[h].msg.messageId;
             m in s'.pm && s'.pm[m].status == Pm.Completed ==>
               Terminal(s', s'.pm[m].jobId) || s'.pm[m].jobId in s.log.stale || s'.pm == s.pm
    requires x'.pc == s.handlers[h].pc || PcOk(c, s', x')
    ensures Inv(c, s') && Grows(s, s')
  {
    assert PmEdit(s, s', h, x');
    assert h in s.handlers;
    hide Authenticated, PmEdit, Handlers, Envelopes, Tokens, PmRows, Jobs, Carriers, Cache, Ids,
         Grows, HandlerOk, PmRowOk, PcOk, RowOk;
    assert Tokens(s) && PmRows(s);
    AuthenticatedTokens(s, s', h, x');
    PmEditGrows(s, s', h, x');
    AuthenticatedRow(s, s', h, x');
    hide Inv;
    HandlerFacts(c, s, h);
    AuthenticatedHandler(c, s, s', h, x');
    PmEditKeeps(c, s, s', h, x');
  }

  lemma RenewAuthentic(s: State, h: HandlerId, now: Time)
    requires h in s.handlers && Working(s.handlers[h].pc)
    ensures var s', m := AfterRenew(s, h, now), s.handlers[h].msg.messageId;
            && h in s'.handlers && Authenticated(s, s', h, s'.handlers[h]) && s'.handlers[h].pc == s.handlers[h].pc
            && (m in s'.pm && s'.pm[m].status == Pm.Completed ==> s'.pm == s.pm)
  {
    RenewEdit(s, h, now);
    hide PmEdit;
  }

  lemma RenewEdit(s: State, h: HandlerId, now: Time)
    requires h in s.handlers
    ensures h in AfterRenew(s, h, now).handlers && PmEdit(s, AfterRenew(s, h, now), h, AfterRenew(s, h, now).handlers[h])
  {
    var x := s.handlers[h];
    RenewedRows(s.pm, x.msg.messageId, x.token, now);
    assert s.handlers[h := x] == s.handlers;
    hide Pm.Renewed, Pm.HoldsProcessing;
  }

  lemma RenewedRows(t: Pm.PmTable, m: MessageId, token: Pm.Token, now: Time)
    ensures var t' := Pm.Renewed(t, m, token, now);
            && t'.Keys == t.Keys && (forall n :: n in t && n != m ==> t'[n] == t[n])
            && (m in t ==> t'[m].status == t[m].status)
  {
  }

  lemma RenewKeeps(c: Config, s: State, h: HandlerId, now: Time)
    requires Inv(c, s) && h in s.handlers && Working(s.handlers[h].pc)
    ensures Inv(c, AfterRenew(s, h, now)) && Grows(s, AfterRenew(s, h, now))
  {
    hide Inv, Grows, PcOk, Terminal, AfterRenew, Authenticated, Working;
    RenewAuthentic(s, h, now);
    AuthenticatedKeeps(c, s, AfterRenew(s, h, now), h, AfterRenew(s, h, now).handlers[h]);
  }

  lemma MarkRetryKeeps(c: Config, s: State, h: HandlerId)
    requires Inv(c, s) && At(s, h, MarkingRetry)
    ensures Inv(c, AfterMarkRetry(s, h)) && Grows(s, AfterMarkRetry(s, h))
  {
    hide Inv, Grows, RowOk, Terminal;
    HandlerFacts(c, s, h);
    var s' := AfterMarkRetry(s, h);
    var x' := s'.handlers[h];
    assert PcOk(c, s', x') by { hide PublishedOk; }
    hide HandlerOk, PcOk;
    AuthenticatedKeeps(c, s, s', h, x');
  }

  lemma HandlerIdentity(c: Config, s: State, h: HandlerId)
    requires Inv(c, s) && h in s.handlers
    ensures var m := s.handlers[h].msg;
            m.messageId in s.pm ==> Pm.SameJob(s.pm[m.messageId], m.kind, m.jobId)
  {
    hide Handlers, Envelopes, Tokens, PmRows, Jobs, Carriers, Cache, Ids, RowOk, PcOk;
    HandlerFacts(c, s, h);
    OneIdentity(c, s, s.handlers[h].msg);
  }

  lemma MarkDoneKeeps(c: Config, s: State, h: HandlerId, now: Time)
    requires Inv(c, s) && h in s.handlers && s.handlers[h].pc.Completing?
    ensures Inv(c, AfterMarkDone(s, h, now)) && Grows(s, AfterMarkDone(s, h, now))
  {
    hide Inv, Grows, RowOk, IsTerminal;
    HandlerFacts(c, s, h);
    HandlerIdentity(c, s, h);
    var s' := AfterMarkDone(s, h, now);
    var x' := s'.handlers[h];
    assert PcOk(c, s', x') by { hide PublishedOk; }
    AuthenticatedKeeps(c, s, s', h, x');
  }

  // No message of the system is ever refused before it is claimed.
  lemma ClaimVerdict(c: Config, s: State, m: Message)
    requires Ids(s) && PmRows(s) && MessageOk(c, s, m)
    ensures ValidEnvelope(m)
    ensures Pm.Verdict(s.pm, m.messageId, m.kind, m.jobId, s.clock) != Pm.Conflict
    ensures Pm.Verdict(s.pm, m.messageId, m.kind, m.jobId, s.clock) == Pm.AlreadyDone <==> PmDone(s, m.jobId)
  {
    OneIdentity(c, s, m);
  }

  lemma ClaimTokens(s: State, s': State, h: HandlerId, x': Handler)
    requires PmEdit(s, s', h, x') && Tokens(s) && s.handlers[h].pc == Received
    requires x'.token == s.nextToken && s'.nextToken == s.nextToken + 1
    requires forall g :: g in s.handlers && s.handlers[g].pc != Received ==> s.handlers[g].token < s.nextToken
    requires var m := x'.msg.messageId;
             || (s'.pm == s.pm && !Working(x'.pc))
             || (m in s'.pm && s'.pm[m].token == s.nextToken && s'.pm[m].status == Pm.Processing)
    ensures Tokens(s')
  {
  }

  // What a claim does to the table, seen from the other rows.
  lemma ClaimShape(t: Pm.PmTable, m: MessageId, kind: Kind, j: JobId, attempt: nat, now: Time, clock: Time, lease: Pm.Token)
    ensures var v := Pm.Verdict(t, m, kind, j, clock);
            var t' := Pm.Claimed(t, m, kind, j, attempt, now, clock, lease);
            && (forall n :: n in t ==> n in t')
            && (forall n :: n in t' && n != m ==> n in t && t'[n] == t[n])
            && (if Pm.GivesLease(v)
                then m in t' && t'[m].token == lease && t'[m].status == Pm.Processing && Pm.SameJob(t'[m], kind, j)
                     && (m in t ==> t[m].status != Pm.Completed)
                else t' == t)
  {
  }

  lemma ClaimEdit(s: State, h: HandlerId, now: Time)
    requires At(s, h, Received) && ValidEnvelope(s.handlers[h].msg)
    ensures PmEdit(s, AfterClaim(s, h, now), h, AfterClaim(s, h, now).handlers[h])
  {
    var m := s.handlers[h].msg;
    ClaimShape(s.pm, m.messageId, m.kind, m.jobId, WrapUint8(ExtractAttempt(m.attempt).value), now, s.clock, s.nextToken);
    hide Pm.Claimed, Pm.Verdict, ValidEnvelope, WrapUint8;
  }

  lemma ClaimRow(c: Config, s: State, h: HandlerId, now: Time)
    requires At(s, h, Received) && MessageOk(c, s, s.handlers[h].msg) && PmRows(s)
    ensures var s', m := AfterClaim(s, h, now), s.handlers[h].msg.messageId;
            m in s'.pm ==> PmRowOk(s', m, s'.pm[m])
  {
    var m := s.handlers[h].msg;
    ClaimShape(s.pm, m.messageId, m.kind, m.jobId, WrapUint8(ExtractAttempt(m.attempt).value), now, s.clock, s.nextToken);
    hide Pm.Claimed, Pm.Verdict, WrapUint8;
  }

  lemma ClaimLease(s: State, h: HandlerId, now: Time)
    requires At(s, h, Received) && ValidEnvelope(s.handlers[h].msg)
    ensures var s', m := AfterClaim(s, h, now), s.handlers[h].msg.messageId;
            || (s'.pm == s.pm && !Working(s'.handlers[h].pc))
            || (m in s'.pm && s'.pm[m].token == s.nextToken && s'.pm[m].status == Pm.Processing)
  {
    var m := s.handlers[h].msg;
    ClaimShape(s.pm, m.messageId, m.kind, m.jobId, WrapUint8(ExtractAttempt(m.attempt).value), now, s.clock, s.nextToken);
    hide Pm.Claimed, Pm.Verdict, WrapUint8, ValidEnvelope;
  }

  lemma ClaimHandler(c: Config, s: State, h: HandlerId, now: Time)
    requires At(s, h, Received) && HandlerOk(c, s, s.handlers[h]) && Ids(s) && PmRows(s)
    requires Grows(s, AfterClaim(s, h, now))
    ensures HandlerOk(c, AfterClaim(s, h, now), AfterClaim(s, h, now).handlers[h])
  {
    var s' := AfterClaim(s, h, now);
    var m := s.handlers[h].msg;
    HandlerOkGrows(c, s, s', s.handlers[h]) by { hide AfterClaim, Grows; }
    ClaimVerdict(c, s, m) by { hide Ids, PmRows, AfterClaim; }
    hide Grows, Ids, PmRows, Pm.Claimed, Pm.Verdict, ValidEnvelope;
    assert PmDone(s, m.jobId) ==> PmDone(s', m.jobId) by { ClaimEdit(s, h, now); hide HandlerOk; }
  }

  lemma InvTables(c: Config, s: State)
    requires Inv(c, s)
    ensures Ids(s) && PmRows(s) && Tokens(s)
    ensures forall g :: g in s.handlers && s.handlers[g].pc != Received ==> s.handlers[g].token < s.nextToken
  {
    hide Ids, PmRows, Tokens, Envelopes, Jobs, Carriers, Cache, PcOk, PublishedOk;
  }

  lemma ClaimKeeps(c: Config, s: State, h: HandlerId, now: Time)
    requires Inv(c, s) && At(s, h, Received)
    ensures Inv(c, AfterClaim(s, h, now)) && Grows(s, AfterClaim(s, h, now))
  {
    hide Inv, Tokens, Grows, RowOk, Ids, PmRows, ValidEnvelope, PcOk, PmEdit, PmRowOk;
    var s' := AfterClaim(s, h, now);
    var x' := s'.handlers[h];
    InvTables(c, s);
    HandlerFacts(c, s, h);
    assert MessageOk(c, s, s.handlers[h].msg);
    ClaimVerdict(c, s, s.handlers[h].msg);
    hide HandlerOk, MessageOk;
    ClaimEdit(s, h, now);
    PmEditGrows(s, s', h, x');
    ClaimLease(s, h, now);
    ClaimRow(c, s, h, now);
    ClaimHandler(c, s, h, now);
    assert x'.msg == s.handlers[h].msg && x'.token == s.nextToken && s'.nextToken == s.nextToken + 1;
    hide AfterClaim, Pm.Claimed, Pm.Verdict;
    ClaimTokens(s, s', h, x');
    PmEditKeeps(c, s, s', h, x');
  }

  // ---- broker and client steps ---------------------------------------------

  lemma PlaceKeeps(c: Config, s: State, s': State)
    requires Inv(c, s) && s' == s.(inFlight := s'.inFlight)
    requires s'.inFlight.Keys == s.inFlight.Keys
    requires forall q :: q in s.inFlight ==>
               s'.inFlight[q].msg == s.inFlight[q].msg
               && (s'.inFlight[q].place.Unacked? ==> s'.inFlight[q].place == s.inFlight[q].place)
    ensures Inv(c, s') && Grows(s, s')
  {
    hide RowOk, PathOk, PmRowOk, HandlerOk, Tokens, Ids, Handlers, Jobs, PmRows, Carriers, Cache, PublishedOk;
    assert Grows(s, s') by { hide Envelopes; }
    hide Grows;
    HandlersSubset(c, s, s');
    JobsFrame(c, s, s');
    PmRowsFrame(s, s');
    CarriersFrame(s, s');
    IdsTokensCacheFrame(c, s, s');
    assert Envelopes(c, s') by { PlaceEnvelopes(c, s, s'); }
  }

  lemma PlaceEnvelopes(c: Config, s: State, s': State)
    requires Envelopes(c, s) && s' == s.(inFlight := s'.inFlight)
    requires s'.inFlight.Keys == s.inFlight.Keys
    requires forall q :: q in s.inFlight ==>
               s'.inFlight[q].msg == s.inFlight[q].msg
               && (s'.inFlight[q].place.Unacked? ==> s'.inFlight[q].place == s.inFlight[q].place)
    ensures Envelopes(c, s')
  {
  }

  lemma WireMessage(c: Config, s: State, w: Late)
    requires Inv(c, s) && w in s.wire && !w.dead
    ensures MessageOk(c, s, w.msg)
  {
    hide Ids, Handlers, Jobs, PmRows, Tokens, Carriers, Cache, PublishedOk;
  }

  // A message enters after its publisher gave up: as good as any other of its job.
  lemma SurfaceKeeps(c: Config, s: State, w: Late)
    requires Inv(c, s) && w in s.wire
    ensures Inv(c, AfterSurface(s, w)) && Grows(s, AfterSurface(s, w))
  {
    hide Inv, Grows, MessageOk;
    var t := s.(wire := s.wire - multiset{w});
    if w.dead {
      LogKeeps(c, s, t.(dlq := t.dlq + {w.msg}));
    } else {
      LogKeeps(c, s, t);
      WireMessage(c, s, w);
      assert MessageOk(c, t, w.msg) by { SameMessageOk(c, s, t, w.msg); }
      EnqueueKeeps(c, t, w.msg, RetryQueue);
      GrowsTransitive(s, t, AfterSurface(s, w));
    }
  }

  lemma SameMessageOk(c: Config, s: State, t: State, m: Message)
    requires MessageOk(c, s, m) && t.ids == s.ids
    ensures MessageOk(c, t, m)
  {
  }

  lemma DropEnvelopes(c: Config, s: State, s': State, h: HandlerId)
    requires Envelopes(c, s) && s' == s.(inFlight := s'.inFlight, handlers := s.handlers - {h})
    requires forall q :: q in s'.inFlight ==> q in s.inFlight && s'.inFlight[q] == s.inFlight[q]
    requires forall q :: q in s'.inFlight ==> s'.inFlight[q].place != Unacked(h)
    ensures Envelopes(c, s')
  {
  }

  lemma DropTokens(s: State, s': State, h: HandlerId)
    requires Tokens(s) && s' == s.(inFlight := s'.inFlight, handlers := s.handlers - {h})
    ensures Tokens(s')
  {
  }

  // A handler ends; its delivery, if any, is no longer its own.
  lemma DropKeeps(c: Config, s: State, s': State, h: HandlerId)
    requires Inv(c, s) && s' == s.(inFlight := s'.inFlight, handlers := s.handlers - {h})
    requires forall q :: q in s'.inFlight ==> q in s.inFlight && s'.inFlight[q] == s.inFlight[q]
    requires forall q :: q in s'.inFlight ==> s'.inFlight[q].place != Unacked(h)
    requires Carriers(s')
    ensures Inv(c, s') && Grows(s, s')
  {
    hide RowOk, PathOk, PmRowOk, HandlerOk, Tokens, Handlers, Jobs, PmRows, Carriers, Cache, Envelopes, Ids;
    assert Grows(s, s');
    hide Grows;
    HandlersSubset(c, s, s');
    JobsFrame(c, s, s');
    PmRowsFrame(s, s');
    DropEnvelopes(c, s, s', h);
    DropTokens(s, s', h);
    IdsTokensCacheFrame(c, s, s'.(handlers := s.handlers));
    IdsCacheFrame(c, s'.(handlers := s.handlers), s');
  }

  lemma IdsCacheFrame(c: Config, s: State, s': State)
    requires Ids(s) && Cache(c, s) && s' == s.(handlers := s'.handlers)
    ensures Ids(s') && Cache(c, s')
  {
  }

  lemma OwnDelivery(c: Config, s: State, h: HandlerId, q: Seq)
    requires Inv(c, s) && q in s.inFlight && s.inFlight[q].place == Unacked(h)
    ensures h in s.handlers && s.handlers[h].tag == q && s.handlers[h].msg == s.inFlight[q].msg
  {
    hide Ids, Handlers, Jobs, PmRows, Tokens, Carriers, Cache, PublishedOk;
  }

  lemma ReturnKeeps(c: Config, s: State, h: HandlerId)
    requires Inv(c, s) && h in s.handlers
    ensures var s' := s.(inFlight := Returned(s, h)); Inv(c, s') && Grows(s, s')
    ensures forall q :: q in Returned(s, h) ==> Returned(s, h)[q].place != Unacked(h)
  {
    hide Inv, Grows;
    PlaceKeeps(c, s, s.(inFlight := Returned(s, h)));
    forall q | q in Returned(s, h) ensures Returned(s, h)[q].place != Unacked(h) {
      if s.inFlight[q].place == Unacked(h) {
        OwnDelivery(c, s, h, q);
      }
    }
  }

  lemma GiveUpKeeps(c: Config, s: State, h: HandlerId)
    requires Inv(c, s) && h in s.handlers
    ensures var s' := s.(inFlight := Returned(s, h), handlers := s.handlers - {h}); Inv(c, s') && Grows(s, s')
  {
    hide Inv, Grows, Returned, Carriers;
    var t := s.(inFlight := Returned(s, h));
    ReturnKeeps(c, s, h);
    InvCarriers(c, t);
    var s' := t.(handlers := t.handlers - {h});
    assert Carriers(s') by { CarriersWithout(t, h); }
    DropKeeps(c, t, s', h);
    GrowsTransitive(s, t, s');
  }

  lemma CarriersWithout(s: State, h: HandlerId)
    requires Carriers(s)
    ensures Carriers(s.(handlers := s.handlers - {h}))
  {
    var s' := s.(handlers := s.handlers - {h});
    assert forall j :: (Carried(s', j) <==> Carried(s, j)) && (PmDone(s', j) <==> PmDone(s, j));
  }

  // The one step that removes a message: only one that is superseded or settled.
  lemma AckCarriers(s: State, h: HandlerId, j: JobId)
    requires Carriers(s) && h in s.handlers && j == s.handlers[h].msg.jobId
    requires s.handlers[h].tag in s.inFlight && s.inFlight[s.handlers[h].tag].place == Unacked(h)
             ==> s.inFlight[s.handlers[h].tag].msg.jobId == j
    requires Superseded(s, s.handlers[h].tag, j) || PmDone(s, j)
    ensures Carriers(s.(inFlight := Acked(s, h), handlers := s.handlers - {h}))
  {
    var s' := s.(inFlight := Acked(s, h), handlers := s.handlers - {h});
    forall k | k in s'.log.newest
      ensures k in s'.ids && s'.log.newest[k] < s'.nextSeq && (Carried(s', k) || PmDone(s', k))
    {
      assert PmDone(s', k) == PmDone(s, k);
    }
  }

  lemma AckKeeps(c: Config, s: State, h: HandlerId)
    requires Inv(c, s) && h in s.handlers && s.handlers[h].pc.Acking?
    ensures var s' := s.(inFlight := Acked(s, h), handlers := s.handlers - {h}); Inv(c, s') && Grows(s, s')
  {
    hide Inv, Grows, Carriers;
    var s' := s.(inFlight := Acked(s, h), handlers := s.handlers - {h});
    HandlerFacts(c, s, h);
    InvCarriers(c, s);
    if s.handlers[h].tag in s.inFlight && s.inFlight[s.handlers[h].tag].place == Unacked(h) {
      OwnDelivery(c, s, h, s.handlers[h].tag);
    }
    hide HandlerOk, RowOk;
    AckCarriers(s, h, s.handlers[h].msg.jobId);
    hide PcOk;
    forall q | q in s'.inFlight ensures s'.inFlight[q].place != Unacked(h) {
      if s.inFlight[q].place == Unacked(h) {
        OwnDelivery(c, s, h, q);
      }
    }
    DropKeeps(c, s, s', h);
  }

  lemma DeliverEnvelopes(c: Config, s: State, q: Seq)
    requires Envelopes(c, s) && Handlers(c, s) && q in s.inFlight && s.inFlight[q].place == Main
    ensures Envelopes(c, AfterDeliver(s, q))
  {
    hide HandlerOk;
  }

  lemma DeliverTokens(c: Config, s: State, q: Seq)
    requires Tokens(s) && Handlers(c, s) && q in s.inFlight
    ensures Tokens(AfterDeliver(s, q))
  {
    hide HandlerOk;
  }

  lemma DeliverKeeps(c: Config, s: State, q: Seq)
    requires Inv(c, s) && q in s.inFlight && s.inFlight[q].place == Main
    ensures Inv(c, AfterDeliver(s, q)) && Grows(s, AfterDeliver(s, q))
  {
    hide RowOk, PathOk, PmRowOk, HandlerOk, Tokens, Handlers, Jobs, PmRows, Carriers, Cache, Ids, PublishedOk;
    var s' := AfterDeliver(s, q);
    var x' := s'.handlers[s.nextHandler];
    assert PublishedOk(c, s, q, s.inFlight[q].msg);
    hide Envelopes;
    assert Grows(s, s');
    assert HandlerOk(c, s, x') by { FreshHandler(c, s, q); }
    HandlerOkGrows(c, s, s', x');
    DeliverEnvelopes(c, s, q);
    DeliverTokens(c, s, q);
    hide Grows;
    HandlersFrame(c, s, s', s.nextHandler, x');
    JobsFrame(c, s, s');
    PmRowsFrame(s, s');
    CarriersFrame(s, s');
    IdsTokensCacheFrame(c, s, s'.(handlers := s.handlers));
    IdsCacheFrame(c, s'.(handlers := s.handlers), s');
  }

  lemma FreshHandler(c: Config, s: State, q: Seq)
    requires q in s.inFlight && PublishedOk(c, s, q, s.inFlight[q].msg)
    ensures HandlerOk(c, s, AfterDeliver(s, q).handlers[s.nextHandler])
  {
    hide PublishedOk;
  }

  lemma TickKeeps(c: Config, s: State, t: Time)
    requires Inv(c, s) && s.clock < t
    ensures Inv(c, s.(clock := t)) && Grows(s, s.(clock := t))
  {
    hide RowOk, PathOk, PmRowOk, HandlerOk, Tokens, Handlers, Jobs, PmRows, Carriers, Cache, Ids, Envelopes;
    var s' := s.(clock := t);
    assert Grows(s, s');
    hide Grows;
    HandlersSubset(c, s, s');
    JobsFrame(c, s, s');
    PmRowsFrame(s, s');
    CarriersFrame(s, s');
    IdsTokensCacheFrame(c, s, s');
    LogEnvelopes(c, s, s');
  }

  lemma EvictKeeps(c: Config, s: State, j: JobId)
    requires Inv(c, s) && j in s.store
    ensures var s' := s.(store := s.store - {j}, log := s.log.(evicted := s.log.evicted + {j}));
            Inv(c, s') && Grows(s, s')
  {
    hide RowOk, PathOk, PmRowOk, HandlerOk, Tokens, Handlers, Jobs, PmRows, Carriers, Ids, Envelopes;
    var s' := s.(store := s.store - {j}, log := s.log.(evicted := s.log.evicted + {j}));
    assert Grows(s, s') && Cache(c, s');
    hide Grows, Cache;
    HandlersSubset(c, s, s');
    JobsFrame(c, s, s');
    PmRowsFrame(s, s');
    CarriersFrame(s, s');
    LogEnvelopes(c, s, s');
    IdsTokensCacheFrame(c, s, s'.(store := s.store));
    TokensFrame(s'.(store := s.store), s');
  }

  lemma SubmitJobs(c: Config, s: State, j: JobId, m: MessageId, owner: nat)
    requires Jobs(c, s) && Grows(s, AfterSubmit(s, j, m, owner)) && j !in s.jobs && j != 0
    ensures Jobs(c, AfterSubmit(s, j, m, owner))
  {
    hide Grows, IsPath, RowOk;
    var s' := AfterSubmit(s, j, m, owner);
    forall k | k in s'.jobs ensures k != 0 && RowOk(c, s', k, s'.jobs[k]) && PathOk(s', k) {
      if k != j {
        RowOkGrows(c, s, s', k, s.jobs[k]);
      } else {
        assert s'.log.path[j] == [Pending, Queued];
        assert IsPath([Pending, Queued]) by { FirstPath(); }
        assert RowOk(c, s', k, s'.jobs[k]) by { FirstRow(c, s', k, owner); }
      }
    }
  }

  lemma FirstPath()
    ensures IsPath([Pending, Queued])
  {
    assert Allowed(Pending, Queued);
  }

  lemma FirstRow(c: Config, s: State, j: JobId, owner: nat)
    ensures RowOk(c, s, j, PendingJob(owner).(status := Queued))
  {
  }

  lemma SubmitGrows(s: State, j: JobId, m: MessageId, owner: nat)
    requires j !in s.jobs && j !in s.ids
    ensures Grows(s, AfterSubmit(s, j, m, owner))
  {
  }

  lemma SubmitIds(s: State, j: JobId, m: MessageId, owner: nat)
    requires Ids(s) && j !in s.jobs && m !in s.ids.Values
    ensures Ids(AfterSubmit(s, j, m, owner))
  {
    assert forall k :: k in s.ids ==> s.ids[k] in s.ids.Values;
  }

  lemma SubmitKeeps(c: Config, s: State, j: JobId, m: MessageId, owner: nat)
    requires Inv(c, s) && j !in s.jobs && j != 0 && m !in s.ids.Values
    ensures Inv(c, AfterSubmit(s, j, m, owner)) && Grows(s, AfterSubmit(s, j, m, owner))
  {
    hide RowOk, PathOk, PmRowOk, HandlerOk, Tokens, Handlers, Jobs, PmRows, Carriers, Cache, Envelopes;
    var s' := AfterSubmit(s, j, m, owner);
    assert j !in s.ids;
    SubmitGrows(s, j, m, owner);
    hide Grows;
    SubmitJobs(c, s, j, m, owner);
    SubmitIds(s, j, m, owner);
    hide Ids;
    HandlersSubset(c, s, s');
    PmRowsFrame(s, s');
    CarriersFrame(s, s');
    SubmitEnvelopes(c, s, j, m, owner);
    SubmitTokens(c, s, j, m, owner);
  }

  lemma SubmitEnvelopes(c: Config, s: State, j: JobId, m: MessageId, owner: nat)
    requires Envelopes(c, s) && j !in s.ids
    ensures Envelopes(c, AfterSubmit(s, j, m, owner))
  {
  }

  lemma SubmitTokens(c: Config, s: State, j: JobId, m: MessageId, owner: nat)
    requires Tokens(s) && Cache(c, s)
    ensures Tokens(AfterSubmit(s, j, m, owner)) && Cache(c, AfterSubmit(s, j, m, owner))
  {
  }

  // ---- every step, every run -----------------------------------------------

  lemma OutboxMessageOk(c: Config, s: State, j: JobId)
    requires Inv(c, s) && j in s.ids
    ensures MessageOk(c, s, OutboxMessage(j, s.ids[j]))
  {
    hide RowOk, PathOk, PmRows, Handlers, Tokens, Carriers, Cache, Envelopes;
  }

  lemma ImpossibleSteps(c: Config, s: State, l: Label)
    requires Inv(c, s) && Enabled(s, l)
    ensures !l.Reject? && !l.SendOrphan?
  {
    hide Inv, RowOk, HandlerOk;
    if l.Reject? || l.SendOrphan? {
      HandlerFacts(c, s, l.h);
    }
  }

  lemma StepKeeps(c: Config, s: State, l: Label)
    requires c.maxRetries <= MAX_SANE_ATTEMPT && Inv(c, s) && Enabled(s, l)
    ensures Inv(c, Apply(c, s, l)) && Grows(s, Apply(c, s, l))
  {
    hide Inv, Grows, AfterSubmit, AfterSurface, AfterClaim, AfterDeliver, AfterRenew, AfterLoad, AfterStore, AfterSendNext,
         AfterMarkRetry, AfterMarkDone, Swapped, Published, DeadLetter, Enqueue, Go, Returned, Acked, MessageOk;
    ImpossibleSteps(c, s, l);
    match l {
      case Tick(t) => TickKeeps(c, s, t);
      case Submit(j, m, owner) => SubmitKeeps(c, s, j, m, owner);
      case MainPublish(j) =>
        OutboxMessageOk(c, s, j);
        EnqueueKeeps(c, s, OutboxMessage(j, s.ids[j]), Main);
      case Surface(w) => SurfaceKeeps(c, s, w);
      case RetryExpire(q) => PlaceKeeps(c, s, Apply(c, s, l));
      case Deliver(q) => DeliverKeeps(c, s, q);
      case Disconnect(h) => ReturnKeeps(c, s, h);
      case GiveUp(h) => GiveUpKeeps(c, s, h);
      case Evict(j) => EvictKeeps(c, s, j);
      case Claim(h, now) => ClaimKeeps(c, s, h, now);
      case Renew(h, now) => RenewKeeps(c, s, h, now);
      case Defer(h, p) => DeferKeeps(c, s, h, p);
      case Reject(h, p) =>
      case Load(h) => LoadKeeps(c, s, h);
      case SendOrphan(h, p) =>
      case Enter(h) => EnterKeeps(c, s, h);
      case Advance(h) => AdvanceKeeps(c, s, h);
      case Hiccup(h) => HiccupKeeps(c, s, h);
      case Refuse(h, code, now) => RefuseKeeps(c, s, h, code, now);
      case StoreResult(h, rows, now, p) => StoreResultKeeps(c, s, h, rows, now, p);
      case Succeed(h) => SucceedKeeps(c, s, h);
      case SendNext(h, p) => SendNextKeeps(c, s, h, p);
      case RecordRetry(h, at) => RecordRetryKeeps(c, s, h, at);
      case RecordDead(h, now) => RecordDeadKeeps(c, s, h, now);
      case MarkRetry(h) => MarkRetryKeeps(c, s, h);
      case MarkDone(h, now) => MarkDoneKeeps(c, s, h, now);
      case Ack(h) => AckKeeps(c, s, h);
    }
  }

  lemma SendNextKeeps(c: Config, s: State, h: HandlerId, p: Publish)
    requires c.maxRetries <= MAX_SANE_ATTEMPT && Inv(c, s) && h in s.handlers && s.handlers[h].pc.Rescheduling?
    ensures Inv(c, AfterSendNext(c, s, h, p)) && Grows(s, AfterSendNext(c, s, h, p))
  {
    hide Inv, Grows, AfterSendNext;
    if s.handlers[h].attempt + 1 <= c.maxRetries {
      SendRetryKeeps(c, s, h, p);
    } else {
      SendDeadKeeps(c, s, h, p);
    }
  }

  lemma InitInv(c: Config)
    ensures Inv(c, Init())
  {
  }

  lemma GrowsReflexive(s: State)
    ensures Grows(s, s)
  {
  }

  lemma {:induction false} RunKeeps(c: Config, s: State, ls: seq<Label>, s': State)
    requires c.maxRetries <= MAX_SANE_ATTEMPT && Inv(c, s) && Run(c, s, ls, s')
    ensures Inv(c, s') && Grows(s, s')
    decreases |ls|
  {
    hide Inv, Grows, Apply, Enabled;
    if ls == [] {
      GrowsReflexive(s);
    } else {
      var t := Apply(c, s, ls[0]);
      StepKeeps(c, s, ls[0]);
      RunKeeps(c, t, ls[1..], s');
      GrowsTransitive(s, t, s');
    }
  }

  lemma ReachableInv(c: Config, s: State)
    requires c.maxRetries <= MAX_SANE_ATTEMPT && Reachable(c, s)
    ensures Inv(c, s)
  {
    hide Inv, Grows, Apply, Enabled, Run;
    var ls :| Run(c, Init(), ls, s);
    InitInv(c);
    RunKeeps(c, Init(), ls, s);
  }
}
