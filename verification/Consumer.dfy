// internal/queryjob/consumer.go and worker_service.go as code: Handle, Process
// and the pipeline over the two repositories, interleaved with any steps of
// other workers, dispatchers, the broker and the lease-renewal goroutine. Each
// statement is one step of Delivery.
module Consumers {
  import opened Options
  import opened JobStatus
  import opened Messages
  import opened QueryJobs
  import opened Delivery
  import opened DeliveryFrames
  import opened DeliverySafety
  import opened DeliveryTheorems
  import Pm = Idempotency

  datatype DeliveryOutcome = OutcomeAck | OutcomeNackRequeue | OutcomeFatal

  // What Process returns: nil, three sentinel errors, or any other error.
  datatype ProcessError = NoError | RetryScheduled | DlqScheduled | JobNotFound | OtherError

  // How a pipeline stage ends. Cancelled stands for the errors that Process hands on as they
  // are: a cancelled schema read or generation, a result that cannot be marshalled. A
  // cancelled validation is retried.
  datatype StageResult = Fine | Retryable | Deterministic(code: ErrorCode) | Cancelled

  // What happens around one delivery: whether others take steps meanwhile, and how the
  // calls it makes turn out.
  datatype World = World(
    others: bool,
    claimFails: bool,
    readFails: bool,
    generating: StageResult,
    validating: StageResult,
    executing: StageResult,
    rows: nat,           // rows the query returns
    stored: Publish,     // how the write to the result cache ends
    sent: Publish)       // how the publish to the retry queue or the DLQ ends

  function ResultAt(w: World, at: Status): StageResult {
    if at == Generating then w.generating else if at == Validating then w.validating else w.executing
  }

  // What the attempt that is given up leaves behind; from is the status it was given up in.
  // Without a compare-and-set conflict the answer is decided by the attempts left.
  predicate RetryAnswer(c: Config, w: World, calm: bool, attempt: nat, from: Status, row: Job, e: ProcessError) {
    if w.sent != Confirmed then e == OtherError
    else if e == OtherError then !calm && row.status != from
    else if attempt + 1 <= c.maxRetries
    then e == RetryScheduled && row.status == Retrying && row.attemptCount == attempt + 1
    else e == DlqScheduled && row.status == Failed && row.errorCode == Some(MaxRetriesExceeded)
  }

  // What the stage that ends the pipeline answers, and the row at that moment.
  predicate StageAnswer(c: Config, w: World, calm: bool, attempt: nat, at: Status, row: Job, e: ProcessError) {
    match ResultAt(w, at)
    case Fine =>
      if at != Executing then e == OtherError && !calm && row.status != at
      else if w.stored != Confirmed then RetryAnswer(c, w, calm, attempt, at, row, e)
      else if e == OtherError then !calm && row.status != at
      else e == NoError && row.status == Succeeded && row.rowCount == Some(w.rows)
    case Retryable => RetryAnswer(c, w, calm, attempt, at, row, e)
    case Deterministic(code) =>
      if (at, code) !in {(Generating, UnsupportedQuestion), (Generating, LlmFailed), (Status.Validating, SqlValidationFailed),
                         (Executing, QueryExecutionFailed), (Executing, ResultTooLarge)}
      then e == OtherError
      else if e == OtherError then !calm && row.status != at
      else e == NoError && row.status == Failed && row.errorCode == Some(code)
    case Cancelled =>
      if at == Status.Validating then RetryAnswer(c, w, calm, attempt, at, row, e) else e == OtherError
  }

  // The pipeline stops at the first stage that does not end well, or where a row it moves
  // is no longer where it left it.
  predicate PipelineAnswer(c: Config, w: World, calm: bool, attempt: nat, at: Status, row: Job, e: ProcessError) {
    && (at == Generating || at == Status.Validating || at == Executing)
    && (at != Generating ==> w.generating == Fine) && (at == Executing ==> w.validating == Fine)
    && StageAnswer(c, w, calm, attempt, at, row, e)
  }

  // What Process answers to the row it reads; row' is the row when it answers.
  predicate ProcessAnswer(c: Config, w: World, attempt: nat, row: Job, row': Job, e: ProcessError, at: Status) {
    if w.readFails then e == OtherError
    else match row.status
      case Succeeded => e == NoError && row' == row
      case Failed => e == NoError && row' == row
      case Pending => e == OtherError
      case Queued => EntryAnswer(c, w, attempt, row, row', e, at)
      case Retrying =>
        if row.attemptCount != attempt then e == NoError && row' == row
        else EntryAnswer(c, w, attempt, row, row', e, at)
      case stage => RetryAnswer(c, w, !w.others, attempt, stage, row', e)
  }

  predicate EntryAnswer(c: Config, w: World, attempt: nat, row: Job, row': Job, e: ProcessError, at: Status) {
    || (e == OtherError && w.others && row'.status != row.status)
    || PipelineAnswer(c, w, !w.others, attempt, at, row', e)
  }

  // What handle answers to message m where nobody else acts meanwhile: t and row are the
  // idempotency table and the job row at the delivery, t' and row' at the answer.
  predicate HandleAnswer(c: Config, w: World, m: Message, clock: Time, t: Pm.PmTable, row: Job,
                         t': Pm.PmTable, row': Job, outcome: DeliveryOutcome, e: ProcessError, at: Status)
  {
    var routed := if w.sent == Confirmed then OutcomeAck else OutcomeNackRequeue;
    if !ValidEnvelope(m) then outcome == routed && t' == t && row' == row
    else if w.claimFails then outcome == OutcomeFatal && t' == t && row' == row
    else match Pm.Verdict(t, m.messageId, m.kind, m.jobId, clock)
      case AlreadyDone => outcome == OutcomeAck && t' == t && row' == row
      case LeaseHeld => outcome == routed && t' == t && row' == row
      case Conflict => outcome == routed && t' == t && row' == row
      case _ => ClaimedAnswer(c, w, m, ExtractAttempt(m.attempt).value, row, t', row', outcome, e, at)
  }

  predicate ClaimedAnswer(c: Config, w: World, m: Message, attempt: nat, row: Job, t': Pm.PmTable, row': Job,
                          outcome: DeliveryOutcome, e: ProcessError, at: Status)
  {
    && ProcessAnswer(c, w, attempt, row, row', e, at)
    && outcome == (if e == OtherError then OutcomeFatal
                   else if e == JobNotFound && w.sent != Confirmed then OutcomeNackRequeue else OutcomeAck)
    && (outcome == OutcomeAck ==>
          m.messageId in t'
          && t'[m.messageId].status == if e == RetryScheduled then Pm.RetryScheduled else Pm.Completed)
  }

  ghost predicate Leads(c: Config, s: State, s': State) {
    exists ls :: Run(c, s, ls, s')
  }

  lemma LeadsThenStep(c: Config, s: State, t: State, l: Label)
    requires Leads(c, s, t) && Enabled(t, l)
    ensures Leads(c, s, Apply(c, t, l))
  {
    hide Apply, Enabled, Run;
    var ls :| Run(c, s, ls, t);
    OneMore(c, t, l);
    RunConcat(c, s, ls, t, [l], Apply(c, t, l));
  }

  lemma OneMore(c: Config, t: State, l: Label)
    requires Enabled(t, l)
    ensures Run(c, t, [l], Apply(c, t, l))
  {
    hide Apply, Enabled;
    assert Run(c, Apply(c, t, l), [], Apply(c, t, l));
    assert [l][1..] == [];
  }

  // Steps of handler h itself; the renewal goroutine runs beside it.
  predicate OwnStep(l: Label, h: HandlerId) {
    (HandlerLabel(l) && !l.Renew? && l.h == h) || (l.GiveUp? && l.h == h) || (l.Ack? && l.h == h)
  }

  // Everything about a handler but the lease-lost flag.
  predicate SameHandler(s: State, s': State, h: HandlerId) {
    && h in s.handlers && h in s'.handlers
    && s'.handlers[h] == s.handlers[h].(leaseLost := s'.handlers[h].leaseLost)
  }

  lemma OutsideSpare(c: Config, s: State, l: Label, h: HandlerId)
    requires Enabled(s, l) && !OwnStep(l, h) && !HandlerLabel(l) && h in s.handlers && h < s.nextHandler
    ensures SameHandler(s, Apply(c, s, l), h)
  {
    hide Returned, Acked, OutboxMessage, AfterSubmit, AfterSurface, AfterDeliver, Enqueue;
    match l {
      case Surface(w) => SurfaceFrame(s, w);
      case Submit(j, m, owner) => SubmitFrame(c, s, l);
      case MainPublish(j) => PlainSpare(s, OutboxMessage(j, s.ids[j]), 0);
      case Deliver(q) => PlainSpare(s, OutboxMessage(0, 0), q);
      case _ =>
    }
  }

  lemma PlainSpare(s: State, m: Message, q: Seq)
    ensures Enqueue(s, m, Main).handlers == s.handlers
    ensures q in s.inFlight ==> forall h :: h in s.handlers && h < s.nextHandler ==> SameHandler(s, AfterDeliver(s, q), h)
  {
  }

  lemma RenewSpares(s: State, g: HandlerId, now: Time, h: HandlerId)
    requires g in s.handlers && h in s.handlers
    ensures SameHandler(s, AfterRenew(s, g, now), h) && AfterRenew(s, g, now).nextHandler == s.nextHandler
  {
    hide Pm.Renewed, Pm.HoldsProcessing;
  }

  lemma OthersSpare(c: Config, s: State, l: Label, h: HandlerId)
    requires Enabled(s, l) && !OwnStep(l, h) && h in s.handlers && h < s.nextHandler
    ensures SameHandler(s, Apply(c, s, l), h) && h < Apply(c, s, l).nextHandler
  {
    if l.Renew? {
      hide AfterRenew, SameHandler;
      RenewSpares(s, l.h, l.now, h);
    } else if HandlerLabel(l) {
      hide Enabled, Apply, SameJobs, SameQueue, SameCache;
      StepFrame(c, s, l);
    } else {
      hide Enabled, Apply;
      OutsideSpare(c, s, l, h);
      NextHandlerGrows(c, s, l);
    }
  }

  lemma HandlerBound(c: Config, s: State, h: HandlerId)
    requires Inv(c, s) && h in s.handlers
    ensures h < s.nextHandler
  {
    hide HandlerOk, Ids, PmRows, Tokens, Envelopes, Jobs, Carriers, Cache;
  }

  lemma OtherStep(c: Config, s: State, l: Label)
    requires c.maxRetries <= MAX_SANE_ATTEMPT && Inv(c, s) && Enabled(s, l)
    ensures Inv(c, Apply(c, s, l)) && s.clock <= Apply(c, s, l).clock
  {
    hide Inv, Apply, Enabled;
    StepKeeps(c, s, l);
  }

  // A step of h that writes neither job rows nor idempotency rows.
  predicate PlainLabel(l: Label) {
    HandlerLabel(l) && !SwapLabel(l) && !PmLabel(l)
  }

  // Nothing happened to the lease of h.
  predicate Undisturbed(s: State, s': State, h: HandlerId) {
    h in s.handlers && h in s'.handlers && s'.pm == s.pm && s'.handlers[h].leaseLost == s.handlers[h].leaseLost
  }

  lemma PlainFlag(c: Config, s: State, l: Label)
    requires Enabled(s, l) && PlainLabel(l)
    ensures l.h in s.handlers && l.h in Apply(c, s, l).handlers
    ensures Apply(c, s, l).handlers[l.h].leaseLost == s.handlers[l.h].leaseLost
  {
    hide WorkerMessage, NextAttempt, LoadPc, Swapped, AfterClaim, AfterRenew, AfterMarkRetry, AfterMarkDone, Published,
         DeadLetter, Enqueue, AfterLoad, AfterStore;
    var x := s.handlers[l.h];
    var again := WorkerMessage(x.msg.jobId, x.msg.messageId, x.attempt);
    match l {
      case Defer(h, p) => PublishFlag(s, h, again, p, Acking(true));
      case Reject(h, p) => PublishFlag(s, h, again, p, Acking(false));
      case SendOrphan(h, p) => PublishFlag(s, h, again, p, Completing(JobMissing));
      case SendNext(h, p) =>
        var next := NextAttempt(x.attempt);
        var sent := s.(log := s.log.(sent := s.log.sent + {(x.msg.jobId, next)}));
        PublishFlag(s, h, again, p, DlqSent(x.pc.from));
        PublishFlag(if p == NotEntered then s else sent, h, WorkerMessage(x.msg.jobId, x.msg.messageId, next), p,
                    RetrySent(x.pc.from));
      case StoreResult(h, rows, now, p) => StoreFlag(c, s, h, rows, now, p);
      case Load(h) => StoreFlag(c, s, h, 0, 0, NotEntered);
      case _ =>
    }
  }

  lemma StoreFlag(c: Config, s: State, h: HandlerId, rows: nat, now: Time, p: Publish)
    requires h in s.handlers
    ensures var s' := AfterStore(c, s, h, rows, now, p);
            h in s'.handlers && s'.handlers[h].leaseLost == s.handlers[h].leaseLost
    ensures var s' := AfterLoad(s, h); h in s'.handlers && s'.handlers[h].leaseLost == s.handlers[h].leaseLost
  {
    hide LoadPc;
  }

  lemma PublishFlag(s: State, h: HandlerId, m: Message, p: Publish, pc: Pc)
    requires h in s.handlers
    ensures h in Published(s, h, m, p, pc).handlers && h in DeadLetter(s, h, m, p, pc).handlers
    ensures Published(s, h, m, p, pc).handlers[h].leaseLost == s.handlers[h].leaseLost
    ensures DeadLetter(s, h, m, p, pc).handlers[h].leaseLost == s.handlers[h].leaseLost
    ensures Published(s, h, m, p, pc).handlers[h].pc == (if p == Confirmed then pc else Aborted)
    ensures DeadLetter(s, h, m, p, pc).handlers[h].pc == (if p == Confirmed then pc else Aborted)
  {
  }

  lemma PlainStep(c: Config, s: State, l: Label)
    requires Enabled(s, l) && PlainLabel(l)
    ensures var s' := Apply(c, s, l);
            s'.jobs == s.jobs && s'.pm == s.pm && s'.nextToken == s.nextToken && HandlerFrame(s, s', l.h)
    ensures s.handlers[l.h].pc != Received && Undisturbed(s, Apply(c, s, l), l.h)
  {
    assert s.handlers[l.h].pc != Received;
    hide Enabled, Apply, SameQueue, SameCache;
    PlainFlag(c, s, l);
    StepFrame(c, s, l);
  }

  // The handler is still at work on the same delivery.
  predicate SameDelivery(s: State, s': State, h: HandlerId) {
    && h in s.handlers && h in s'.handlers
    && s'.handlers[h].msg == s.handlers[h].msg && s'.handlers[h].tag == s.handlers[h].tag
    && s'.handlers[h].attempt == s.handlers[h].attempt && s'.handlers[h].token == s.handlers[h].token
  }

  // A compare-and-set of handler h: the repository update, and the handler goes on
  // exactly if the row matched.
  predicate Cas(s: State, s': State, h: HandlerId, w: Swap) {
    && SameDelivery(s, s', h) && s.handlers[h].msg.jobId in s.jobs
    && var matched := Matches(s.jobs, s.handlers[h].msg.jobId, w.from);
    && s'.jobs == (if matched then s.jobs[s.handlers[h].msg.jobId := w.row] else s.jobs)
    && s'.pm == s.pm && s'.nextToken == s.nextToken && s.dlq <= s'.dlq
    && s'.handlers[h].pc == (if matched then w.pc else Aborted)
    && s'.handlers[h].leaseLost == s.handlers[h].leaseLost
  }

  lemma SwapStep(c: Config, s: State, l: Label)
    requires Enabled(s, l) && SwapLabel(l) && l.h in s.handlers && s.handlers[l.h].msg.jobId in s.jobs
    ensures Cas(s, Apply(c, s, l), l.h, SwapOf(c, s, l))
  {
    hide SameQueue, SameCache, Swapped, Apply, SwapOf, Enabled, Working;
    ApplySwap(c, s, l);
    SwapShape(c, s, l);
    var j, w := s.handlers[l.h].msg.jobId, SwapOf(c, s, l);
    var after := if s.jobs[j].status == w.from then s.jobs[j := w.row] else s.jobs;
    SwappedJobs(s, l.h, w.from, after, w.row.status, w.pc);
    SwappedFrame(s, l.h, w.from, after, w.row.status, w.pc);
    SwappedPc(s, l.h, w.from, after, w.row.status, w.pc);
    SwapNotes(c, s, l);
  }

  lemma SwappedPc(s: State, h: HandlerId, from: Status, after: JobTable, to: Status, pc: Pc)
    requires h in s.handlers
    ensures h in Swapped(s, h, from, after, to, pc).handlers
    ensures Swapped(s, h, from, after, to, pc).handlers[h].pc ==
              if Matches(s.jobs, s.handlers[h].msg.jobId, from) then pc else Aborted
    ensures Swapped(s, h, from, after, to, pc).handlers[h].leaseLost == s.handlers[h].leaseLost
  {
  }

  predicate HasRow(s: State, h: HandlerId) {
    h in s.handlers && s.handlers[h].msg.jobId in s.jobs
  }

  function RowOf(s: State, h: HandlerId): Job
    requires HasRow(s, h)
  {
    s.jobs[s.handlers[h].msg.jobId]
  }

  // Nobody else acts, and the row stands where h left it.
  predicate Calm(w: World, s: State, h: HandlerId, at: Status) {
    !w.others && HasRow(s, h) && RowOf(s, h).status == at
  }

  // The same answers, from state s at the call to state t at the return.
  predicate RetryEnds(c: Config, w: World, s: State, t: State, h: HandlerId, from: Status, e: ProcessError) {
    HasRow(t, h) && RetryAnswer(c, w, Calm(w, s, h, from), t.handlers[h].attempt, from, RowOf(t, h), e)
  }

  predicate StageEnds(c: Config, w: World, s: State, t: State, h: HandlerId, at: Status, e: ProcessError) {
    HasRow(t, h) && StageAnswer(c, w, Calm(w, s, h, at), t.handlers[h].attempt, at, RowOf(t, h), e)
  }

  predicate PipelineEnds(c: Config, w: World, s: State, t: State, h: HandlerId, at: Status, e: ProcessError) {
    HasRow(t, h) && PipelineAnswer(c, w, Calm(w, s, h, Generating), t.handlers[h].attempt, at, RowOf(t, h), e)
  }

  predicate ProcessEnds(c: Config, w: World, s: State, t: State, h: HandlerId, at: Status, e: ProcessError) {
    && HasRow(s, h) && HasRow(t, h)
    && ProcessAnswer(c, w, t.handlers[h].attempt, RowOf(s, h), RowOf(t, h), e, at)
  }

  predicate ClaimedEnds(c: Config, w: World, s: State, t: State, h: HandlerId, outcome: DeliveryOutcome,
                        e: ProcessError, at: Status)
  {
    && HasRow(s, h) && HasRow(t, h)
    && var x := s.handlers[h];
       !w.others && !x.leaseLost && Pm.HoldsProcessing(s.pm, x.msg.messageId, x.token) ==>
         ClaimedAnswer(c, w, x.msg, x.attempt, RowOf(s, h), t.pm, RowOf(t, h), outcome, e, at)
  }

  predicate HandleEnds(c: Config, w: World, s: State, t: State, h: HandlerId, outcome: DeliveryOutcome,
                       e: ProcessError, at: Status)
  {
    && HasRow(s, h) && HasRow(t, h)
    && (!w.others && !s.handlers[h].leaseLost ==>
          HandleAnswer(c, w, s.handlers[h].msg, s.clock, s.pm, RowOf(s, h), t.pm, RowOf(t, h), outcome, e, at))
  }

  predicate EntryEnds(c: Config, w: World, s: State, t: State, h: HandlerId, at: Status, e: ProcessError) {
    && HasRow(s, h) && HasRow(t, h)
    && EntryAnswer(c, w, t.handlers[h].attempt, RowOf(s, h), RowOf(t, h), e, at)
  }

  // A later stage starts from a row the earlier ones left in place.
  lemma LaterStageEnds(c: Config, w: World, s: State, u: State, t: State, h: HandlerId, at: Status, e: ProcessError)
    requires StageEnds(c, w, u, t, h, at, e) && (Calm(w, s, h, Generating) ==> Calm(w, u, h, at))
    requires at == Status.Validating || at == Executing
    requires w.generating == Fine && (at == Executing ==> w.validating == Fine)
    ensures PipelineEnds(c, w, s, t, h, at, e)
  {
  }

  lemma PipelineIsEntry(c: Config, w: World, s: State, u: State, t: State, h: HandlerId, at: Status, e: ProcessError)
    requires PipelineEnds(c, w, u, t, h, at, e) && (!w.others ==> Calm(w, u, h, Generating)) && HasRow(s, h)
    ensures EntryEnds(c, w, s, t, h, at, e)
  {
  }

  predicate SameMessage(s: State, s': State, h: HandlerId) {
    && h in s.handlers && h in s'.handlers
    && s'.handlers[h].msg == s.handlers[h].msg && s'.handlers[h].tag == s.handlers[h].tag
  }

  // What an answer of Process means for the pc the handler is left at.
  predicate Answers(pc: Pc, e: ProcessError) {
    match e
    case NoError => pc.Completing? && pc.why != Why.DeadLettered && pc.why != JobMissing
    case RetryScheduled => pc == MarkingRetry
    case DlqScheduled => pc == Completing(Why.DeadLettered)
    case JobNotFound => pc == Orphaned
    case OtherError => pc == Aborted || pc == Loading || pc.Stage?
  }

  // What an answer of the pipeline says about the job, at the moment it is given.
  ghost predicate Settled(s: State, h: HandlerId, e: ProcessError) {
    && h in s.handlers && s.handlers[h].msg.jobId in s.jobs
    && var x, j := s.handlers[h], s.handlers[h].msg.jobId;
       var r := s.jobs[j];
    match e
    case NoError =>
      && IsTerminal(r.status)
      && (r.status == Succeeded ==> j in s.log.cached && r.resultExpiresAt.Some? && Kept(s, j, r.resultExpiresAt.value))
    case RetryScheduled =>
      && r.status == Retrying && r.attemptCount == x.attempt + 1
      && (j, x.attempt + 1) in s.log.sent && Superseded(s, x.tag, j)
    case DlqScheduled =>
      && r.status == Failed && r.errorCode == Some(MaxRetriesExceeded)
      && WorkerMessage(j, x.msg.messageId, x.attempt) in s.dlq
    case _ => true
  }

  lemma OtherSettled(c: Config, s: State, h: HandlerId)
    requires Inv(c, s) && h in s.handlers
    ensures Settled(s, h, OtherError)
  {
    hide Inv;
    OwnJob(c, s, h);
  }

  lemma RetrySettled(c: Config, s: State, h: HandlerId)
    requires c.maxRetries <= MAX_SANE_ATTEMPT && Inv(c, s) && At(s, h, MarkingRetry)
    requires s.handlers[h].msg.jobId in s.jobs && s.jobs[s.handlers[h].msg.jobId].status == Retrying
    requires s.jobs[s.handlers[h].msg.jobId].attemptCount == s.handlers[h].attempt + 1
    ensures Settled(s, h, RetryScheduled)
  {
    hide Inv, HandlerOk, Kept, DlqHas, WorkerMessage;
    HandlerFacts(c, s, h);
  }

  lemma DoneSettled(c: Config, s: State, h: HandlerId)
    requires Inv(c, s) && At(s, h, Completing(Finished))
    ensures Settled(s, h, NoError)
  {
    hide Inv, HandlerOk, Kept, DlqHas, WorkerMessage;
    HandlerFacts(c, s, h);
  }

  lemma NextIs(attempt: nat)
    ensures NextAttempt(attempt) == WrapUint8(attempt + 1)
  {
  }

  lemma OwnJob(c: Config, s: State, h: HandlerId)
    requires Inv(c, s) && h in s.handlers
    ensures s.handlers[h].msg.jobId in s.jobs
  {
    hide Inv, HandlerOk, PcOk, RowOk;
    HandlerFacts(c, s, h);
  }

  lemma CasStep(c: Config, start: State, s: State, l: Label)
    requires c.maxRetries <= MAX_SANE_ATTEMPT && Inv(c, s) && Leads(c, start, s)
    requires Enabled(s, l) && SwapLabel(l) && l.h in s.handlers && s.handlers[l.h].msg.jobId in s.jobs
    ensures Inv(c, Apply(c, s, l)) && Leads(c, start, Apply(c, s, l))
    ensures Cas(s, Apply(c, s, l), l.h, SwapOf(c, s, l))
  {
    hide Inv, Enabled, Apply, Leads, SwapOf, Grows, Cas;
    StepKeeps(c, s, l);
    SwapStep(c, s, l);
    LeadsThenStep(c, start, s, l);
  }

  function TransitionLabel(h: HandlerId, to: Status): Label {
    if to == Generating then Enter(h) else Advance(h)
  }

  predicate MayTransition(pc: Pc, from: Status, to: Status) {
    if to == Generating then pc == Entering(from)
    else pc == Stage(from) && (from == Generating || from == Validating) && to == NextStage(from)
  }

  lemma TransitionSwap(c: Config, s: State, h: HandlerId, from: Status, to: Status)
    requires h in s.handlers && s.handlers[h].msg.jobId in s.jobs && MayTransition(s.handlers[h].pc, from, to)
    ensures var l := TransitionLabel(h, to);
            Enabled(s, l) && SwapLabel(l) && l.h == h
            && SwapOf(c, s, l) == Swap(from, s.jobs[s.handlers[h].msg.jobId].(status := to), Stage(to))
  {
  }

  lemma RefuseSwap(c: Config, s: State, h: HandlerId, code: ErrorCode, now: Time)
    requires h in s.handlers && s.handlers[h].msg.jobId in s.jobs && s.handlers[h].pc.Stage? && Reports(s.handlers[h].pc.at, code)
    ensures Enabled(s, Refuse(h, code, now))
    ensures SwapOf(c, s, Refuse(h, code, now)) ==
              Swap(s.handlers[h].pc.at,
                   s.jobs[s.handlers[h].msg.jobId].(status := Failed, errorCode := Some(code), finishedAt := Some(now)),
                   Completing(Finished))
  {
  }

  lemma SucceedSwap(c: Config, s: State, h: HandlerId)
    requires h in s.handlers && s.handlers[h].msg.jobId in s.jobs && s.handlers[h].pc.Stored?
    ensures Enabled(s, Succeed(h))
    ensures var pc := s.handlers[h].pc;
            SwapOf(c, s, Succeed(h)) ==
              Swap(Executing,
                   s.jobs[s.handlers[h].msg.jobId].(status := Succeeded, rowCount := Some(pc.rows), finishedAt := Some(pc.now),
                                                    resultExpiresAt := Some(pc.now + c.resultTTL)),
                   Completing(Finished))
  {
  }

  lemma RecordSwap(c: Config, s: State, h: HandlerId, at: Time)
    requires h in s.handlers && s.handlers[h].msg.jobId in s.jobs
    ensures s.handlers[h].pc.RetrySent? ==>
              Enabled(s, RecordRetry(h, at))
              && SwapOf(c, s, RecordRetry(h, at)) ==
                   Swap(s.handlers[h].pc.from,
                        s.jobs[s.handlers[h].msg.jobId].(status := Retrying, attemptCount := NextAttempt(s.handlers[h].attempt),
                                                         nextRetryAt := Some(at)),
                        MarkingRetry)
    ensures s.handlers[h].pc.DlqSent? ==>
              Enabled(s, RecordDead(h, at))
              && SwapOf(c, s, RecordDead(h, at)) ==
                   Swap(s.handlers[h].pc.from,
                        s.jobs[s.handlers[h].msg.jobId].(status := Failed, errorCode := Some(MaxRetriesExceeded),
                                                         finishedAt := Some(at)),
                        Completing(Why.DeadLettered))
  {
    hide NextAttempt;
  }

  lemma SendDead(c: Config, s: State, h: HandlerId)
    requires h in s.handlers && s.handlers[h].pc.Rescheduling? && s.handlers[h].attempt + 1 > c.maxRetries
    ensures var x := s.handlers[h];
            Enabled(s, SendNext(h, Confirmed))
            && WorkerMessage(x.msg.jobId, x.msg.messageId, x.attempt) in Apply(c, s, SendNext(h, Confirmed)).dlq
  {
    hide WorkerMessage;
  }

  lemma SendPc(c: Config, s: State, h: HandlerId, p: Publish)
    requires h in s.handlers && s.handlers[h].pc.Rescheduling?
    ensures Enabled(s, SendNext(h, p)) && h in Apply(c, s, SendNext(h, p)).handlers
    ensures Apply(c, s, SendNext(h, p)).handlers[h].pc ==
              if p != Confirmed then Aborted
              else if s.handlers[h].attempt + 1 <= c.maxRetries then RetrySent(s.handlers[h].pc.from)
              else DlqSent(s.handlers[h].pc.from)
  {
    hide WorkerMessage, NextAttempt;
  }

  lemma StagePc(c: Config, s: State, h: HandlerId, rows: nat, now: Time, p: Publish)
    requires h in s.handlers && s.handlers[h].pc.Stage?
    ensures Enabled(s, Hiccup(h)) && h in Apply(c, s, Hiccup(h)).handlers
    ensures Apply(c, s, Hiccup(h)).handlers[h].pc == Rescheduling(s.handlers[h].pc.at)
    ensures s.handlers[h].pc.at == Executing && now <= s.clock ==>
              Enabled(s, StoreResult(h, rows, now, p)) && h in Apply(c, s, StoreResult(h, rows, now, p)).handlers
              && Apply(c, s, StoreResult(h, rows, now, p)).handlers[h].pc ==
                   if p == Confirmed then Stored(rows, now) else Rescheduling(Executing)
  {
  }

  lemma LoadStep(c: Config, s: State, h: HandlerId)
    requires At(s, h, Loading)
    ensures Enabled(s, Load(h)) && h in Apply(c, s, Load(h)).handlers
    ensures Apply(c, s, Load(h)).handlers[h].pc == LoadPc(s, s.handlers[h])
  {
    hide LoadPc;
  }

  // What the claim decides.
  lemma ClaimStep(c: Config, s: State, h: HandlerId, now: Time)
    requires At(s, h, Received) && now <= s.clock
    ensures Enabled(s, Claim(h, now))
    ensures var s', m := Apply(c, s, Claim(h, now)), s.handlers[h].msg;
            && s'.jobs == s.jobs && s'.clock == s.clock && h in s'.handlers && s'.handlers[h].msg == m
            && s'.handlers[h].tag == s.handlers[h].tag && s'.handlers[h].leaseLost == s.handlers[h].leaseLost
            && (if !ValidEnvelope(m)
                then s'.handlers[h].pc == Rejecting && s'.pm == s.pm && s'.nextToken == s.nextToken
                     && s'.handlers[h].attempt == s.handlers[h].attempt
                else && s'.handlers[h].attempt == ExtractAttempt(m.attempt).value && s'.handlers[h].token == s.nextToken
                     && s'.handlers[h].pc == AfterVerdict(Pm.Verdict(s.pm, m.messageId, m.kind, m.jobId, s.clock))
                     && s'.nextToken == s.nextToken + 1
                     && s'.pm == Pm.Claimed(s.pm, m.messageId, m.kind, m.jobId,
                                            WrapUint8(ExtractAttempt(m.attempt).value), now, s.clock, s.nextToken))
  {
    hide Pm.Claimed, Pm.Verdict, ValidEnvelope, WrapUint8, AfterVerdict;
  }

  lemma ClaimGives(t: Pm.PmTable, m: Message, now: Time, clock: Time, lease: Pm.Token)
    requires Pm.UniqueJobs(t) && ValidEnvelope(m)
    ensures var attempt := WrapUint8(ExtractAttempt(m.attempt).value);
            var t' := Pm.Claimed(t, m.messageId, m.kind, m.jobId, attempt, now, clock, lease);
            if Pm.GivesLease(Pm.Verdict(t, m.messageId, m.kind, m.jobId, clock))
            then Pm.HoldsProcessing(t', m.messageId, lease) else t' == t
  {
    hide ExtractAttempt, WrapUint8;
  }

  // The copy of a delivery the consumer publishes itself.
  function CopyOf(x: Handler): Message {
    WorkerMessage(x.msg.jobId, x.msg.messageId, x.attempt)
  }

  // What such a publish puts where.
  lemma RouteEffect(c: Config, s: State, h: HandlerId)
    requires h in s.handlers
    ensures At(s, h, Deferring) ==>
              && Enabled(s, Defer(h, Confirmed)) && s.nextSeq in Apply(c, s, Defer(h, Confirmed)).inFlight
              && Apply(c, s, Defer(h, Confirmed)).inFlight[s.nextSeq] == Envelope(CopyOf(s.handlers[h]), RetryQueue)
    ensures At(s, h, Rejecting) ==>
              Enabled(s, Reject(h, Confirmed)) && CopyOf(s.handlers[h]) in Apply(c, s, Reject(h, Confirmed)).dlq
    ensures At(s, h, Orphaned) ==>
              Enabled(s, SendOrphan(h, Confirmed)) && CopyOf(s.handlers[h]) in Apply(c, s, SendOrphan(h, Confirmed)).dlq
  {
    hide WorkerMessage;
  }

  // A publish of the consumer itself ends the delivery, or aborts it.
  lemma DeferPc(c: Config, s: State, h: HandlerId, p: Publish)
    requires At(s, h, Deferring)
    ensures Enabled(s, Defer(h, p)) && h in Apply(c, s, Defer(h, p)).handlers
    ensures Apply(c, s, Defer(h, p)).handlers[h].pc == if p == Confirmed then Acking(true) else Aborted
  {
    hide WorkerMessage, Published, DeadLetter;
    PublishFlag(s, h, CopyOf(s.handlers[h]), p, Acking(true));
  }

  lemma RejectPc(c: Config, s: State, h: HandlerId, p: Publish)
    requires At(s, h, Rejecting)
    ensures Enabled(s, Reject(h, p)) && h in Apply(c, s, Reject(h, p)).handlers
    ensures Apply(c, s, Reject(h, p)).handlers[h].pc == if p == Confirmed then Acking(false) else Aborted
  {
    hide WorkerMessage, Published, DeadLetter;
    PublishFlag(s, h, CopyOf(s.handlers[h]), p, Acking(false));
  }

  lemma OrphanPc(c: Config, s: State, h: HandlerId, p: Publish)
    requires At(s, h, Orphaned)
    ensures Enabled(s, SendOrphan(h, p)) && h in Apply(c, s, SendOrphan(h, p)).handlers
    ensures Apply(c, s, SendOrphan(h, p)).handlers[h].pc == if p == Confirmed then Completing(JobMissing) else Aborted
  {
    hide WorkerMessage, Published, DeadLetter;
    PublishFlag(s, h, CopyOf(s.handlers[h]), p, Completing(JobMissing));
  }

  lemma MarkStep(c: Config, s: State, h: HandlerId, now: Time)
    requires h in s.handlers
    ensures var x := s.handlers[h];
            && (x.pc.Completing? ==>
                  && Enabled(s, MarkDone(h, now)) && SameDelivery(s, Apply(c, s, MarkDone(h, now)), h)
                  && Apply(c, s, MarkDone(h, now)).jobs == s.jobs && Apply(c, s, MarkDone(h, now)).dlq == s.dlq
                  && Apply(c, s, MarkDone(h, now)).nextToken == s.nextToken
                  && Apply(c, s, MarkDone(h, now)).pm == Pm.MarkedCompleted(s.pm, x.msg.messageId, x.token, now)
                  && Apply(c, s, MarkDone(h, now)).handlers[h].pc ==
                       if Pm.Holds(s.pm, x.msg.messageId, x.token) then Acking(false) else Aborted)
            && (x.pc == MarkingRetry ==>
                  && Enabled(s, MarkRetry(h)) && SameDelivery(s, Apply(c, s, MarkRetry(h)), h)
                  && Apply(c, s, MarkRetry(h)).jobs == s.jobs && Apply(c, s, MarkRetry(h)).nextToken == s.nextToken
                  && Apply(c, s, MarkRetry(h)).pm == Pm.MarkedRetry(s.pm, x.msg.messageId, x.token)
                  && Apply(c, s, MarkRetry(h)).handlers[h].pc ==
                       if Pm.HoldsProcessing(s.pm, x.msg.messageId, x.token) then Acking(true) else Aborted)
  {
    hide Pm.MarkedCompleted, Pm.MarkedRetry, Pm.Holds, Pm.HoldsProcessing;
  }

  // The table a repository works on is well formed.
  lemma PmTableValid(c: Config, s: State)
    requires Inv(c, s)
    ensures Pm.UniqueJobs(s.pm) && forall m :: m in s.pm ==> s.pm[m].token < s.nextToken
  {
    hide Inv, Tokens, Ids;
    InvTables(c, s);
  }

  // Before an ACK the delivery was handed over to a newer message, or the job is settled.
  predicate Ackable(s: State, h: HandlerId) {
    && h in s.handlers && s.handlers[h].pc.Acking?
    && (Superseded(s, s.handlers[h].tag, s.handlers[h].msg.jobId) || PmDone(s, s.handlers[h].msg.jobId))
  }

  lemma AckingIsAckable(c: Config, s: State, h: HandlerId)
    requires Inv(c, s) && h in s.handlers && s.handlers[h].pc.Acking?
    ensures Ackable(s, h)
  {
    hide Inv, HandlerOk, RowOk, Superseded, PmDone;
    HandlerFacts(c, s, h);
  }

  // What Process answered holds of the job.
  lemma AnswerMeans(c: Config, s: State, h: HandlerId, e: ProcessError)
    requires Inv(c, s) && h in s.handlers && Answers(s.handlers[h].pc, e)
    ensures var j := s.handlers[h].msg.jobId;
            && (e == NoError ==> Terminal(s, j) || j in s.log.stale)
            && (e == DlqScheduled ==> Terminal(s, j))
            && (e == RetryScheduled ==> Superseded(s, s.handlers[h].tag, j))
  {
    hide Inv, HandlerOk, RowOk, Superseded, Terminal;
    HandlerFacts(c, s, h);
  }

  lemma DeliverStep(c: Config, start: State, s: State, q: Seq)
    requires c.maxRetries <= MAX_SANE_ATTEMPT && Inv(c, s) && Leads(c, start, s)
    requires q in s.inFlight && s.inFlight[q].place == Main
    ensures Enabled(s, Deliver(q)) && Inv(c, Apply(c, s, Deliver(q))) && Leads(c, start, Apply(c, s, Deliver(q)))
    ensures var s', h := Apply(c, s, Deliver(q)), s.nextHandler;
            && s'.jobs == s.jobs && s'.pm == s.pm && s'.nextToken == s.nextToken
            && At(s', h, Received) && s'.handlers[h].msg == s.inFlight[q].msg && s'.handlers[h].tag == q
            && !s'.handlers[h].leaseLost && s'.clock == s.clock
  {
    hide Inv, Leads, Grows;
    StepKeeps(c, s, Deliver(q));
    LeadsThenStep(c, start, s, Deliver(q));
  }

  lemma EndStep(c: Config, start: State, s: State, h: HandlerId, acked: bool)
    requires c.maxRetries <= MAX_SANE_ATTEMPT && Inv(c, s) && Leads(c, start, s) && h in s.handlers
    requires acked ==> s.handlers[h].pc.Acking?
    ensures var l := if acked then Ack(h) else GiveUp(h);
            && Enabled(s, l) && Inv(c, Apply(c, s, l)) && Leads(c, start, Apply(c, s, l))
            && Apply(c, s, l).jobs == s.jobs && Apply(c, s, l).pm == s.pm && Apply(c, s, l).nextToken == s.nextToken
            && Apply(c, s, l).log == s.log && Apply(c, s, l).ids == s.ids && h !in Apply(c, s, l).handlers
  {
    hide Inv, Leads, Grows, Acked, Returned;
    var l := if acked then Ack(h) else GiveUp(h);
    StepKeeps(c, s, l);
    LeadsThenStep(c, start, s, l);
  }

  class Worker {
    const c: Config
    const retryDelay: nat
    const jobs: JobRepository
    const pm: Pm.ProcessedMessages
    var s: State  // tables, queues and every worker; the repositories see its tables

    // The repositories show the tables of the state.
    ghost predicate Linked() reads this, jobs, pm {
      && c.maxRetries <= MAX_SANE_ATTEMPT
      && jobs.rows == s.jobs && pm.rows == s.pm && pm.nextToken == s.nextToken
    }

    ghost predicate Valid() reads this, jobs, pm {
      Linked() && Inv(c, s)
    }

    constructor (c: Config, retryDelay: nat, jobs: JobRepository, pm: Pm.ProcessedMessages)
      requires c.maxRetries <= MAX_SANE_ATTEMPT
      requires jobs.rows == map[] && pm.rows == map[] && pm.nextToken == 0
      ensures Valid() && this.c == c && this.jobs == jobs && this.pm == pm && s == Init()
    {
      this.c, this.retryDelay, this.jobs, this.pm, s := c, retryDelay, jobs, pm, Init();
      new;
      InitInv(c);
    }

    // Everybody else, for any number of steps.
    method Others(ghost start: State, h: HandlerId, busy: bool)
      requires Linked() && h in s.handlers && h < s.nextHandler && Leads(c, start, s)
      modifies this, jobs, pm
      ensures Linked() && SameHandler(old(s), s, h) && h < s.nextHandler && Leads(c, start, s)
      ensures (Inv(c, old(s)) ==> Inv(c, s) && old(s).clock <= s.clock) && old(s).dlq <= s.dlq
      ensures !busy ==> s == old(s)
    {
      hide Inv, Enabled, Apply, Leads;
      if !busy {
        return;
      }
      var steps: int :| steps >= 0;
      for n := 0 to steps
        invariant Linked() && SameHandler(old(s), s, h) && h < s.nextHandler && Leads(c, start, s)
        invariant (Inv(c, old(s)) ==> Inv(c, s) && old(s).clock <= s.clock) && old(s).dlq <= s.dlq
      {
        var l: Label := *;
        if Enabled(s, l) && !OwnStep(l, h) {
          OthersSpare(c, s, l, h);
          DlqGrows(c, s, l);
          if Inv(c, s) {
            OtherStep(c, s, l);
          }
          LeadsThenStep(c, start, s, l);
          s := Apply(c, s, l);
          jobs.rows, pm.rows, pm.nextToken := s.jobs, s.pm, s.nextToken;
        }
      }
    }

    // The same, where the invariant holds.
    method Pause(ghost start: State, h: HandlerId, busy: bool)
      requires Valid() && h in s.handlers && Leads(c, start, s)
      modifies this, jobs, pm
      ensures Valid() && SameHandler(old(s), s, h) && old(s).clock <= s.clock && Leads(c, start, s)
      ensures old(s).dlq <= s.dlq && (!busy ==> s == old(s))
    {
      hide Inv, Leads;
      HandlerBound(c, s, h);
      Others(start, h, busy);
    }

    // A read, a publish or a cache write of handler h.
    method Act(ghost start: State, l: Label)
      requires Linked() && Enabled(s, l) && PlainLabel(l) && Leads(c, start, s)
      modifies this`s
      ensures Linked() && Leads(c, start, s) && s == Apply(c, old(s), l) && SameDelivery(old(s), s, l.h)
      ensures s.nextHandler == old(s).nextHandler && (Inv(c, old(s)) ==> Inv(c, s))
      ensures s.jobs == old(s).jobs && Undisturbed(old(s), s, l.h)
    {
      hide Inv, Enabled, Apply, Leads, SameJobs, SameQueue, Grows;
      if Inv(c, s) {
        StepKeeps(c, s, l);
      }
      PlainStep(c, s, l);
      LeadsThenStep(c, start, s, l);
      s := Apply(c, s, l);
    }

    // ---- worker_service.go ---------------------------------------------------

    // TransitionStatus from -> to; ok == false is ErrStatusConflict.
    method Transition(ghost start: State, h: HandlerId, from: Status, to: Status) returns (ok: bool)
      requires Valid() && Leads(c, start, s) && h in s.handlers && MayTransition(s.handlers[h].pc, from, to)
      modifies this, jobs
      ensures Valid() && Leads(c, start, s) && SameDelivery(old(s), s, h)
      ensures s.handlers[h].pc == if ok then Stage(to) else Aborted
      ensures ok == Matches(old(s).jobs, s.handlers[h].msg.jobId, from)
      ensures s.jobs == Transitioned(old(s).jobs, s.handlers[h].msg.jobId, from, to) && Undisturbed(old(s), s, h)
    {
      hide Inv, Apply, Enabled, Leads, SwapOf, MayTransition, TransitionLabel;
      OwnJob(c, s, h);
      TransitionSwap(c, s, h, from, to);
      CasStep(c, start, s, TransitionLabel(h, to));
      ok := jobs.TransitionStatus(s.handlers[h].msg.jobId, from, to);
      s := Apply(c, s, TransitionLabel(h, to));
    }

    method ScheduleRetryOrFail(ghost start: State, h: HandlerId, w: World) returns (e: ProcessError)
      requires Valid() && Leads(c, start, s) && h in s.handlers && s.handlers[h].pc.Rescheduling?
      modifies this, jobs, pm
      ensures Valid() && Leads(c, start, s) && SameDelivery(old(s), s, h) && Answers(s.handlers[h].pc, e)
      ensures e != NoError && e != JobNotFound && Settled(s, h, e)
      ensures !w.others ==> Undisturbed(old(s), s, h)
      ensures var from := old(s).handlers[h].pc.from;
              RetryEnds(c, w, old(s), s, h, from, e)
    {
      hide Inv, Leads, Answers, NextAttempt, WrapUint8, SameDelivery, Settled, Undisturbed, Calm;
      var next, from := s.handlers[h].attempt + 1, s.handlers[h].pc.from;
      assert WrapUint8(next) == NextAttempt(s.handlers[h].attempt) by { NextIs(s.handlers[h].attempt); }
      if next <= c.maxRetries {
        e := ScheduleRetry(start, h, w, from, WrapUint8(next));
      } else {
        e := ScheduleDLQ(start, h, w, from);
      }
    }

    // The next attempt is due retryDelay after the clock is read, before the publish.
    method ScheduleRetry(ghost start: State, h: HandlerId, w: World, from: Status, next: nat) returns (e: ProcessError)
      requires Valid() && Leads(c, start, s) && h in s.handlers && s.handlers[h].pc == Rescheduling(from)
      requires s.handlers[h].attempt + 1 <= c.maxRetries && next == NextAttempt(s.handlers[h].attempt)
      modifies this, jobs, pm
      ensures Valid() && Leads(c, start, s) && SameDelivery(old(s), s, h) && Answers(s.handlers[h].pc, e)
      ensures (e == RetryScheduled || e == OtherError) && Settled(s, h, e) && HasRow(s, h)
      ensures !w.others ==> Undisturbed(old(s), s, h)
      ensures RetryEnds(c, w, old(s), s, h, from, e)
      ensures e == RetryScheduled ==> RowOf(s, h).nextRetryAt == Some(old(s).clock + retryDelay)
    {
      hide Inv, Apply, Enabled, Leads, SwapOf, NextAttempt, Settled;
      var at := s.clock + retryDelay;
      OwnJob(c, s, h);
      SendPc(c, s, h, w.sent);
      Act(start, SendNext(h, w.sent));
      if w.sent != Confirmed {
        OtherSettled(c, s, h);
        return OtherError;
      }
      e := RecordRetrying(start, h, w, from, next, at);
    }

    // The retry is published: SetRetrying.
    method RecordRetrying(ghost start: State, h: HandlerId, w: World, from: Status, next: nat, at: Time)
      returns (e: ProcessError)
      requires Valid() && Leads(c, start, s) && h in s.handlers && s.handlers[h].pc == RetrySent(from)
      requires s.handlers[h].attempt + 1 <= c.maxRetries && next == NextAttempt(s.handlers[h].attempt)
      requires w.sent == Confirmed
      modifies this, jobs, pm
      ensures Valid() && Leads(c, start, s) && SameDelivery(old(s), s, h) && Answers(s.handlers[h].pc, e)
      ensures (e == RetryScheduled || e == OtherError) && Settled(s, h, e) && HasRow(s, h)
      ensures !w.others ==> Undisturbed(old(s), s, h)
      ensures RetryEnds(c, w, old(s), s, h, from, e)
      ensures e == RetryScheduled ==> RowOf(s, h).nextRetryAt == Some(at)
    {
      hide Inv, Apply, Enabled, Leads, SwapOf, NextAttempt, Settled;
      Pause(start, h, w.others);
      OwnJob(c, s, h);
      RecordSwap(c, s, h, at);
      CasStep(c, start, s, RecordRetry(h, at));
      var ok := jobs.UpdateRetrying(s.handlers[h].msg.jobId, from, next, at);
      s := Apply(c, s, RecordRetry(h, at));
      e := if ok then RetryScheduled else OtherError;
      if ok {
        NextAttemptExact(c, s.handlers[h].attempt);
        RetrySettled(c, s, h);
      } else {
        OtherSettled(c, s, h);
      }
    }

    method ScheduleDLQ(ghost start: State, h: HandlerId, w: World, from: Status) returns (e: ProcessError)
      requires Valid() && Leads(c, start, s) && h in s.handlers && s.handlers[h].pc == Rescheduling(from)
      requires s.handlers[h].attempt + 1 > c.maxRetries
      modifies this, jobs, pm
      ensures Valid() && Leads(c, start, s) && SameDelivery(old(s), s, h) && Answers(s.handlers[h].pc, e)
      ensures (e == DlqScheduled || e == OtherError) && Settled(s, h, e)
      ensures !w.others ==> Undisturbed(old(s), s, h)
      ensures RetryEnds(c, w, old(s), s, h, from, e)
    {
      hide Inv, Apply, Enabled, Leads, SwapOf, NextAttempt, WorkerMessage;
      OwnJob(c, s, h);
      SendPc(c, s, h, w.sent);
      Act(start, SendNext(h, w.sent));
      if w.sent != Confirmed {
        OtherSettled(c, s, h);
        return OtherError;
      }
      SendDead(c, old(s), h);
      e := RecordDeadLettered(start, h, w, from);
    }

    // The dead letter is published: SetFailed.
    method RecordDeadLettered(ghost start: State, h: HandlerId, w: World, from: Status) returns (e: ProcessError)
      requires Valid() && Leads(c, start, s) && h in s.handlers && s.handlers[h].pc == DlqSent(from)
      requires s.handlers[h].attempt + 1 > c.maxRetries && w.sent == Confirmed
      requires CopyOf(s.handlers[h]) in s.dlq
      modifies this, jobs, pm
      ensures Valid() && Leads(c, start, s) && SameDelivery(old(s), s, h) && Answers(s.handlers[h].pc, e)
      ensures (e == DlqScheduled || e == OtherError) && Settled(s, h, e)
      ensures !w.others ==> Undisturbed(old(s), s, h)
      ensures RetryEnds(c, w, old(s), s, h, from, e)
    {
      hide Inv, Apply, Enabled, Leads, SwapOf, WorkerMessage;
      Pause(start, h, w.others);
      var now := s.clock;
      OwnJob(c, s, h);
      RecordSwap(c, s, h, now);
      CasStep(c, start, s, RecordDead(h, now));
      var ok := jobs.UpdateFailed(s.handlers[h].msg.jobId, from, MaxRetriesExceeded, now);
      s := Apply(c, s, RecordDead(h, now));
      e := if ok then DlqScheduled else OtherError;
    }

    // SetFailed for a deterministic failure of the stage the job is in.
    method Fail(ghost start: State, h: HandlerId, w: World, currentStatus: Status, code: ErrorCode)
      returns (e: ProcessError)
      requires Valid() && Leads(c, start, s) && h in s.handlers && s.handlers[h].pc == Stage(currentStatus)
      requires Reports(currentStatus, code)
      modifies this, jobs, pm
      ensures Valid() && Leads(c, start, s) && SameDelivery(old(s), s, h) && Answers(s.handlers[h].pc, e)
      ensures (e == NoError || e == OtherError) && Settled(s, h, e) && HasRow(s, h)
      ensures !w.others ==> Undisturbed(old(s), s, h)
      ensures e == NoError ==> RowOf(s, h).status == Failed && RowOf(s, h).errorCode == Some(code)
      ensures e == OtherError ==> !Calm(w, old(s), h, currentStatus) && RowOf(s, h).status != currentStatus
    {
      hide Inv, Apply, Enabled, Leads, SwapOf, Reports, Settled;
      var now := s.clock;
      Pause(start, h, w.others);
      OwnJob(c, s, h);
      RefuseSwap(c, s, h, code, now);
      CasStep(c, start, s, Refuse(h, code, now));
      var ok := jobs.UpdateFailed(s.handlers[h].msg.jobId, currentStatus, code, now);
      s := Apply(c, s, Refuse(h, code, now));
      e := if ok then NoError else OtherError;
      if ok {
        DoneSettled(c, s, h);
      } else {
        OtherSettled(c, s, h);
      }
    }

    // A retryable error of the stage the job is in.
    method Retry(ghost start: State, h: HandlerId, w: World) returns (e: ProcessError)
      requires Valid() && Leads(c, start, s) && h in s.handlers && s.handlers[h].pc.Stage?
      modifies this, jobs, pm
      ensures Valid() && Leads(c, start, s) && SameDelivery(old(s), s, h) && Answers(s.handlers[h].pc, e)
      ensures e != NoError && e != JobNotFound && Settled(s, h, e)
      ensures !w.others ==> Undisturbed(old(s), s, h)
      ensures var at := old(s).handlers[h].pc.at;
              RetryEnds(c, w, old(s), s, h, at, e)
    {
      hide Inv, Apply, Enabled, Leads, Settled, RetryAnswer;
      StagePc(c, s, h, 0, 0, NotEntered);
      Act(start, Hiccup(h));
      e := ScheduleRetryOrFail(start, h, w);
    }

    // A stage that did not end well: retry, fail the job, or hand the error on.
    method GiveUpStage(ghost start: State, h: HandlerId, w: World, currentStatus: Status) returns (e: ProcessError)
      requires Valid() && Leads(c, start, s) && h in s.handlers && s.handlers[h].pc == Stage(currentStatus)
      requires ResultAt(w, currentStatus) != Fine
      modifies this, jobs, pm
      ensures Valid() && Leads(c, start, s) && SameDelivery(old(s), s, h) && Answers(s.handlers[h].pc, e)
      ensures Settled(s, h, e) && (!w.others ==> Undisturbed(old(s), s, h))
      ensures StageEnds(c, w, old(s), s, h, currentStatus, e)
    {
      hide Inv, Leads, Settled, RetryAnswer, Calm, ResultAt;
      e := OtherError;
      match ResultAt(w, currentStatus) {
        case Retryable =>
          e := Retry(start, h, w);
        case Deterministic(code) =>
          if Reports(currentStatus, code) {
            e := Fail(start, h, w, currentStatus, code);
          }
        case Cancelled =>
          if currentStatus == Status.Validating {
            e := Retry(start, h, w);
          }
      }
      if e == OtherError {
        OtherSettled(c, s, h);
      }
      OwnJob(c, s, h);
    }

    // One of the first two stages: data source, schema and model, or the SQL guard.
    method LeaveStage(ghost start: State, h: HandlerId, w: World, currentStatus: Status)
      returns (moved: bool, e: ProcessError)
      requires Valid() && Leads(c, start, s) && h in s.handlers && s.handlers[h].pc == Stage(currentStatus)
      requires currentStatus == Generating || currentStatus == Status.Validating
      modifies this, jobs, pm
      ensures Valid() && Leads(c, start, s) && SameDelivery(old(s), s, h) && HasRow(s, h)
      ensures moved ==> s.handlers[h].pc == Stage(NextStage(currentStatus)) && ResultAt(w, currentStatus) == Fine
                        && RowOf(s, h).status == NextStage(currentStatus)
      ensures !moved ==> Answers(s.handlers[h].pc, e) && Settled(s, h, e)
                         && StageEnds(c, w, old(s), s, h, currentStatus, e)
      ensures !w.others ==> Undisturbed(old(s), s, h)
    {
      hide Inv, Leads, Settled, RetryAnswer, ResultAt;
      moved, e := false, OtherError;
      Pause(start, h, w.others);
      if ResultAt(w, currentStatus) != Fine {
        e := GiveUpStage(start, h, w, currentStatus);
        return;
      }
      OwnJob(c, s, h);
      moved := Transition(start, h, currentStatus, NextStage(currentStatus));
      OtherSettled(c, s, h);
    }

    // generating -> validating -> executing -> succeeded; at is where the pipeline stops.
    method RunPipeline(ghost start: State, h: HandlerId, w: World, from: Status) returns (e: ProcessError, at: Status)
      requires Valid() && Leads(c, start, s) && h in s.handlers && from == Generating && s.handlers[h].pc == Stage(from)
      modifies this, jobs, pm
      ensures Valid() && Leads(c, start, s) && SameDelivery(old(s), s, h) && Answers(s.handlers[h].pc, e)
      ensures Settled(s, h, e) && (!w.others ==> Undisturbed(old(s), s, h))
      ensures PipelineEnds(c, w, old(s), s, h, at, e)
      ensures var j := s.handlers[h].msg.jobId; s.jobs[j].status == Succeeded ==> WentThrough(s, j)
    {
      hide Inv, Leads, Settled, WentThrough, PipelineAnswer, Calm;
      e, at := PipelineSteps(start, h, w, from);
      SucceededWentThrough(c, s, s.handlers[h].msg.jobId);
    }

    method PipelineSteps(ghost start: State, h: HandlerId, w: World, from: Status)
      returns (e: ProcessError, currentStatus: Status)
      requires Valid() && Leads(c, start, s) && h in s.handlers && from == Generating && s.handlers[h].pc == Stage(from)
      modifies this, jobs, pm
      ensures Valid() && Leads(c, start, s) && SameDelivery(old(s), s, h) && Answers(s.handlers[h].pc, e)
      ensures Settled(s, h, e) && (!w.others ==> Undisturbed(old(s), s, h))
      ensures PipelineEnds(c, w, old(s), s, h, currentStatus, e)
    {
      hide Inv, Leads, Settled, StageAnswer, RetryAnswer, Answers;
      var moved;
      currentStatus := from;
      moved, e := LeaveStage(start, h, w, currentStatus);
      if !moved {
        return;
      }
      currentStatus := Status.Validating;
      ghost var u := s;
      moved, e := LeaveStage(start, h, w, currentStatus);
      if !moved {
        LaterStageEnds(c, w, old(s), u, s, h, currentStatus, e);
        return;
      }
      currentStatus := Executing;
      u := s;
      e := ExecuteStage(start, h, w);
      LaterStageEnds(c, w, old(s), u, s, h, currentStatus, e);
    }

    method ExecuteStage(ghost start: State, h: HandlerId, w: World) returns (e: ProcessError)
      requires Valid() && Leads(c, start, s) && h in s.handlers && s.handlers[h].pc == Stage(Executing)
      modifies this, jobs, pm
      ensures Valid() && Leads(c, start, s) && SameDelivery(old(s), s, h) && Answers(s.handlers[h].pc, e)
      ensures Settled(s, h, e) && (!w.others ==> Undisturbed(old(s), s, h))
      ensures StageEnds(c, w, old(s), s, h, Executing, e)
    {
      hide Inv, Leads, Settled, RetryAnswer, StageAnswer, Answers;
      Pause(start, h, w.others);
      if ResultAt(w, Executing) == Fine {
        e := StoreAndSucceed(start, h, w);
      } else {
        e := GiveUpStage(start, h, w, Executing);
      }
    }

    method StoreAndSucceed(ghost start: State, h: HandlerId, w: World) returns (e: ProcessError)
      requires Valid() && Leads(c, start, s) && h in s.handlers && s.handlers[h].pc == Stage(Executing)
      requires ResultAt(w, Executing) == Fine
      modifies this, jobs, pm
      ensures Valid() && Leads(c, start, s) && SameDelivery(old(s), s, h) && Answers(s.handlers[h].pc, e)
      ensures Settled(s, h, e) && (!w.others ==> Undisturbed(old(s), s, h))
      ensures e == NoError ==> RowOf(s, h).status == Succeeded
      ensures StageEnds(c, w, old(s), s, h, Executing, e)
    {
      hide Inv, Apply, Enabled, Leads, SwapOf, Settled, RetryAnswer, Answers;
      var now := s.clock;
      Pause(start, h, w.others);
      StagePc(c, s, h, w.rows, now, w.stored);
      Act(start, StoreResult(h, w.rows, now, w.stored));
      if w.stored != Confirmed {
        e := ScheduleRetryOrFail(start, h, w);
        return;
      }
      e := RecordSuccess(start, h, w, w.rows, now);
    }

    method RecordSuccess(ghost start: State, h: HandlerId, w: World, rows: nat, now: Time) returns (e: ProcessError)
      requires Valid() && Leads(c, start, s) && h in s.handlers && s.handlers[h].pc == Stored(rows, now)
      modifies this, jobs, pm
      ensures Valid() && Leads(c, start, s) && SameDelivery(old(s), s, h) && Answers(s.handlers[h].pc, e)
      ensures (e == NoError || e == OtherError) && Settled(s, h, e) && HasRow(s, h)
      ensures !w.others ==> Undisturbed(old(s), s, h)
      ensures var r := RowOf(s, h);
              e == NoError ==> r.status == Succeeded && r.rowCount == Some(rows) && r.resultExpiresAt == Some(now + c.resultTTL)
      ensures e == OtherError ==> !Calm(w, old(s), h, Executing) && RowOf(s, h).status != Executing
    {
      hide Inv, Apply, Enabled, Leads, SwapOf, Settled;
      Pause(start, h, w.others);
      OwnJob(c, s, h);
      SucceedSwap(c, s, h);
      CasStep(c, start, s, Succeed(h));
      var ok := jobs.UpdateSucceeded(s.handlers[h].msg.jobId, Executing, rows, now, now + c.resultTTL);
      s := Apply(c, s, Succeed(h));
      e := if ok then NoError else OtherError;
      if ok {
        DoneSettled(c, s, h);
      } else {
        OtherSettled(c, s, h);
      }
    }

    // at is the status the job was last moved to or read in.
    method Process(ghost start: State, h: HandlerId, w: World) returns (e: ProcessError, at: Status)
      requires Valid() && Leads(c, start, s) && At(s, h, Loading)
      modifies this, jobs, pm
      ensures Valid() && Leads(c, start, s) && SameDelivery(old(s), s, h) && Answers(s.handlers[h].pc, e)
      ensures var j := s.handlers[h].msg.jobId;
              && (e == NoError ==> Terminal(s, j) || j in s.log.stale) && (e == DlqScheduled ==> Terminal(s, j))
              && (e == RetryScheduled ==> Superseded(s, s.handlers[h].tag, j))
      ensures !w.others ==> Undisturbed(old(s), s, h)
      ensures ProcessEnds(c, w, old(s), s, h, at, e)
    {
      hide Inv, Leads, Answers, ProcessAnswer, Terminal, Superseded, Undisturbed;
      e, at := ProcessSteps(start, h, w);
      AnswerMeans(c, s, h, e);
    }

    method ProcessSteps(ghost start: State, h: HandlerId, w: World) returns (e: ProcessError, at: Status)
      requires Valid() && Leads(c, start, s) && At(s, h, Loading)
      modifies this, jobs, pm
      ensures Valid() && Leads(c, start, s) && SameDelivery(old(s), s, h) && Answers(s.handlers[h].pc, e)
      ensures !w.others ==> Undisturbed(old(s), s, h)
      ensures ProcessEnds(c, w, old(s), s, h, at, e)
    {
      hide Inv, Apply, Enabled, Leads, RetryAnswer, PipelineAnswer;
      OwnJob(c, s, h);
      at := Pending;
      if w.readFails {
        return OtherError, at;
      }
      var job := jobs.FindByID(s.handlers[h].msg.jobId);
      var attempt := s.handlers[h].attempt;
      LoadStep(c, s, h);
      Act(start, Load(h));
      if job == None {
        return JobNotFound, at;
      }
      at := job.value.status;
      if IsTerminal(at) {
        return NoError, at;
      }
      if at == Retrying {
        if job.value.attemptCount != attempt {
          return NoError, at;
        }
      } else if IsStage(at) {
        e := ScheduleRetryOrFail(start, h, w);
        return;
      } else if at != Queued {
        return OtherError, at;
      }
      e, at := EnterPipeline(start, h, w, at);
    }

    method EnterPipeline(ghost start: State, h: HandlerId, w: World, fromStatus: Status)
      returns (e: ProcessError, at: Status)
      requires Valid() && Leads(c, start, s) && h in s.handlers && s.handlers[h].pc == Entering(fromStatus)
      requires HasRow(s, h) && RowOf(s, h).status == fromStatus
      modifies this, jobs, pm
      ensures Valid() && Leads(c, start, s) && SameDelivery(old(s), s, h) && Answers(s.handlers[h].pc, e)
      ensures !w.others ==> Undisturbed(old(s), s, h)
      ensures EntryEnds(c, w, old(s), s, h, at, e)
    {
      hide Inv, Leads, PipelineAnswer;
      Pause(start, h, w.others);
      OwnJob(c, s, h);
      var ok := Transition(start, h, fromStatus, Generating);
      if !ok {
        return OtherError, fromStatus;
      }
      ghost var u := s;
      e, at := RunPipeline(start, h, w, Generating);
      PipelineIsEntry(c, w, old(s), u, s, h, at, e);
    }

    // ---- consumer.go ---------------------------------------------------------

    method Claim(ghost start: State, h: HandlerId, now: Time) returns (result: Pm.ClaimResult)
      requires Valid() && Leads(c, start, s) && At(s, h, Received) && now <= s.clock && ValidEnvelope(s.handlers[h].msg)
      modifies this, pm
      ensures Valid() && Leads(c, start, s) && SameMessage(old(s), s, h) && s.handlers[h].pc == AfterVerdict(result)
      ensures var m := s.handlers[h].msg;
              result == Pm.Verdict(old(s).pm, m.messageId, m.kind, m.jobId, old(s).clock)
      ensures s.jobs == old(s).jobs && s.handlers[h].leaseLost == old(s).handlers[h].leaseLost
      ensures var x := s.handlers[h];
              && x.attempt == ExtractAttempt(x.msg.attempt).value
              && (if Pm.GivesLease(result) then Pm.HoldsProcessing(s.pm, x.msg.messageId, x.token) else s.pm == old(s).pm)
    {
      hide Inv, Apply, Enabled, Leads, Pm.Verdict, Pm.Claimed, WrapUint8, AfterVerdict, ExtractAttempt, Grows;
      PmTableValid(c, s);
      ClaimStep(c, s, h, now);
      StepKeeps(c, s, Delivery.Claim(h, now));
      LeadsThenStep(c, start, s, Delivery.Claim(h, now));
      var m := s.handlers[h].msg;
      var token: Option<Pm.Token>;
      ClaimGives(s.pm, m, now, s.clock, s.nextToken);
      token, result := pm.Claim(m.messageId, m.kind, m.jobId, WrapUint8(ExtractAttempt(m.attempt).value), now, s.clock);
      s := Apply(c, s, Delivery.Claim(h, now));
    }

    // dlqDirect, from a delivery that was never claimed.
    method DlqDirect(ghost start: State, h: HandlerId, w: World) returns (outcome: DeliveryOutcome)
      requires Linked() && Leads(c, start, s) && At(s, h, Rejecting)
      modifies this, jobs, pm
      ensures Linked() && (Inv(c, old(s)) ==> Inv(c, s)) && Leads(c, start, s) && SameMessage(old(s), s, h)
      ensures outcome != OutcomeFatal && (outcome == OutcomeAck <==> s.handlers[h].pc.Acking?)
      ensures outcome == OutcomeAck ==> CopyOf(old(s).handlers[h]) in s.dlq
      ensures (outcome == OutcomeAck <==> w.sent == Confirmed) && s.jobs == old(s).jobs && s.pm == old(s).pm
    {
      hide Inv, Apply, Enabled, Leads, CopyOf;
      RejectPc(c, s, h, w.sent);
      RouteEffect(c, s, h);
      Act(start, Reject(h, w.sent));
      outcome := if w.sent == Confirmed then OutcomeAck else OutcomeNackRequeue;
    }

    method DlqThenComplete(ghost start: State, h: HandlerId, w: World) returns (outcome: DeliveryOutcome)
      requires Linked() && Leads(c, start, s) && At(s, h, Orphaned) && h < s.nextHandler
      modifies this, jobs, pm
      ensures Linked() && (Inv(c, old(s)) ==> Inv(c, s)) && Leads(c, start, s) && SameMessage(old(s), s, h)
      ensures outcome != OutcomeFatal && (outcome == OutcomeAck <==> s.handlers[h].pc.Acking?)
      ensures outcome == OutcomeAck ==>
                && CopyOf(old(s).handlers[h]) in s.dlq && s.handlers[h].msg.messageId in s.pm
                && s.pm[s.handlers[h].msg.messageId].status == Pm.Completed
      ensures var x := old(s).handlers[h];
              && (outcome == OutcomeAck ==> w.sent == Confirmed)
              && (!w.others ==> s.jobs == old(s).jobs)
              && (!w.others && w.sent == Confirmed && Pm.Holds(old(s).pm, x.msg.messageId, x.token) ==> outcome == OutcomeAck)
    {
      hide Inv, Apply, Enabled, Leads, CopyOf;
      OrphanPc(c, s, h, w.sent);
      RouteEffect(c, s, h);
      Act(start, SendOrphan(h, w.sent));
      if w.sent != Confirmed {
        return OutcomeNackRequeue;
      }
      Others(start, h, w.others);
      outcome := MarkCompleted(start, h);
    }

    method MarkCompleted(ghost start: State, h: HandlerId) returns (outcome: DeliveryOutcome)
      requires Linked() && Leads(c, start, s) && h in s.handlers && s.handlers[h].pc.Completing?
      modifies this, pm
      ensures Linked() && (Inv(c, old(s)) ==> Inv(c, s)) && Leads(c, start, s) && SameMessage(old(s), s, h)
      ensures outcome != OutcomeFatal && (outcome == OutcomeAck <==> s.handlers[h].pc.Acking?) && s.dlq == old(s).dlq
      ensures s.jobs == old(s).jobs
      ensures var x := old(s).handlers[h];
              && (outcome == OutcomeAck <==> Pm.Holds(old(s).pm, x.msg.messageId, x.token))
              && s.pm == Pm.MarkedCompleted(old(s).pm, x.msg.messageId, x.token, old(s).clock)
    {
      hide Inv, Apply, Enabled, Leads, Pm.MarkedCompleted, Pm.Holds;
      var now := s.clock;
      MarkStep(c, s, h, now);
      if Inv(c, s) {
        StepKeeps(c, s, MarkDone(h, now));
      }
      LeadsThenStep(c, start, s, MarkDone(h, now));
      var ok := pm.MarkCompleted(s.handlers[h].msg.messageId, s.handlers[h].token, now);
      s := Apply(c, s, MarkDone(h, now));
      outcome := if ok then OutcomeAck else OutcomeNackRequeue;
    }

    method MarkRetryScheduled(ghost start: State, h: HandlerId) returns (outcome: DeliveryOutcome)
      requires Valid() && Leads(c, start, s) && At(s, h, MarkingRetry)
      modifies this, pm
      ensures Valid() && Leads(c, start, s) && SameMessage(old(s), s, h) && outcome != OutcomeFatal
      ensures (outcome == OutcomeAck <==> s.handlers[h].pc.Acking?) && s.jobs == old(s).jobs
      ensures var x := old(s).handlers[h];
              && (outcome == OutcomeAck <==> Pm.HoldsProcessing(old(s).pm, x.msg.messageId, x.token))
              && s.pm == Pm.MarkedRetry(old(s).pm, x.msg.messageId, x.token)
    {
      hide Inv, Apply, Enabled, Leads, Pm.MarkedRetry, Pm.HoldsProcessing;
      MarkStep(c, s, h, 0);
      StepKeeps(c, s, MarkRetry(h));
      LeadsThenStep(c, start, s, MarkRetry(h));
      var ok := pm.MarkRetryScheduled(s.handlers[h].msg.messageId, s.handlers[h].token);
      s := Apply(c, s, MarkRetry(h));
      outcome := if ok then OutcomeAck else OutcomeNackRequeue;
    }

    // handle: the outcome of one delivery, and the error of Process where it ran. It never
    // ACKs itself.
    method Handle(ghost start: State, h: HandlerId, w: World)
      returns (outcome: DeliveryOutcome, procErr: ProcessError, at: Status)
      requires Valid() && Leads(c, start, s) && At(s, h, Received)
      modifies this, jobs, pm
      ensures Valid() && Leads(c, start, s) && SameMessage(old(s), s, h)
      ensures (outcome == OutcomeAck <==> s.handlers[h].pc.Acking?) && (outcome == OutcomeAck ==> Ackable(s, h))
      ensures HandleEnds(c, w, old(s), s, h, outcome, procErr, at)
    {
      hide Inv, Leads, Ackable, HandleAnswer;
      outcome, procErr, at := Dispose(start, h, w);
      if outcome == OutcomeAck {
        AckingIsAckable(c, s, h);
      }
    }

    // Steps 1 to 3 of handle fail: nothing is claimed.
    method RefuseEnvelope(ghost start: State, h: HandlerId, w: World) returns (outcome: DeliveryOutcome)
      requires Linked() && Leads(c, start, s) && At(s, h, Received) && !ValidEnvelope(s.handlers[h].msg)
      modifies this, jobs, pm
      ensures Linked() && (Inv(c, old(s)) ==> Inv(c, s)) && Leads(c, start, s) && SameMessage(old(s), s, h)
      ensures outcome != OutcomeFatal && (outcome == OutcomeAck <==> s.handlers[h].pc.Acking?)
      ensures outcome == OutcomeAck ==> CopyOf(old(s).handlers[h]) in s.dlq
      ensures (outcome == OutcomeAck <==> w.sent == Confirmed) && s.jobs == old(s).jobs && s.pm == old(s).pm
    {
      hide Inv, Apply, Enabled, Leads, ValidEnvelope, Grows;
      ClaimStep(c, s, h, 0);
      if Inv(c, s) {
        StepKeeps(c, s, Delivery.Claim(h, 0));
      }
      LeadsThenStep(c, start, s, Delivery.Claim(h, 0));
      s := Apply(c, s, Delivery.Claim(h, 0));
      outcome := DlqDirect(start, h, w);
    }

    // Another worker holds the lease: the same attempt goes back to the retry queue.
    method DeferDelivery(ghost start: State, h: HandlerId, w: World) returns (outcome: DeliveryOutcome)
      requires Valid() && Leads(c, start, s) && At(s, h, Deferring)
      modifies this, jobs, pm
      ensures Valid() && Leads(c, start, s) && SameMessage(old(s), s, h) && outcome != OutcomeFatal
      ensures outcome == OutcomeAck <==> s.handlers[h].pc.Acking?
      ensures outcome == OutcomeAck ==>
                && old(s).nextSeq in s.inFlight
                && s.inFlight[old(s).nextSeq] == Envelope(CopyOf(old(s).handlers[h]), RetryQueue)
      ensures (outcome == OutcomeAck <==> w.sent == Confirmed) && s.jobs == old(s).jobs && s.pm == old(s).pm
    {
      hide Inv, Apply, Enabled, Leads, CopyOf;
      DeferPc(c, s, h, w.sent);
      RouteEffect(c, s, h);
      Act(start, Defer(h, w.sent));
      outcome := if w.sent == Confirmed then OutcomeAck else OutcomeNackRequeue;
    }

    method Dispose(ghost start: State, h: HandlerId, w: World)
      returns (outcome: DeliveryOutcome, procErr: ProcessError, at: Status)
      requires Valid() && Leads(c, start, s) && At(s, h, Received)
      modifies this, jobs, pm
      ensures Valid() && Leads(c, start, s) && SameMessage(old(s), s, h)
      ensures outcome == OutcomeAck <==> s.handlers[h].pc.Acking?
      ensures HandleEnds(c, w, old(s), s, h, outcome, procErr, at)
    {
      hide Inv, Leads, ValidEnvelope, Terminal, Superseded, ProcessAnswer, CopyOf, Pm.Verdict, ExtractAttempt,
           Pm.HoldsProcessing, ClaimedAnswer;
      OwnJob(c, s, h);
      procErr, at := NoError, Pending;
      if !ValidEnvelope(s.handlers[h].msg) {
        outcome := RefuseEnvelope(start, h, w);
        OwnJob(c, s, h);
        return;
      }
      var now := s.clock;
      Pause(start, h, w.others);
      if w.claimFails {
        OwnJob(c, s, h);
        return OutcomeFatal, procErr, at;
      }
      var result := Claim(start, h, now);
      Pause(start, h, w.others);
      OwnJob(c, s, h);
      match result {
        case AlreadyDone =>
          return OutcomeAck, procErr, at;
        case LeaseHeld =>
          outcome := DeferDelivery(start, h, w);
          return;
        case Conflict =>
          outcome := DlqDirect(start, h, w);
          return;
        case _ =>
      }
      outcome, procErr, at := ProcessClaimed(start, h, w);
    }

    method ProcessClaimed(ghost start: State, h: HandlerId, w: World)
      returns (outcome: DeliveryOutcome, procErr: ProcessError, at: Status)
      requires Valid() && Leads(c, start, s) && At(s, h, Loading)
      modifies this, jobs, pm
      ensures Valid() && Leads(c, start, s) && SameMessage(old(s), s, h)
      ensures (outcome == OutcomeAck <==> s.handlers[h].pc.Acking?) && (outcome == OutcomeFatal ==> procErr == OtherError)
      ensures ClaimedEnds(c, w, old(s), s, h, outcome, procErr, at)
    {
      hide Inv, Leads, Terminal, Superseded, ProcessAnswer;
      procErr, at := Process(start, h, w);
      Pause(start, h, w.others);
      OwnJob(c, s, h);
      if s.handlers[h].leaseLost {
        return OutcomeNackRequeue, procErr, at;
      }
      match procErr {
        case NoError =>
          outcome := MarkCompleted(start, h);
        case RetryScheduled =>
          outcome := MarkRetryScheduled(start, h);
        case DlqScheduled =>
          outcome := MarkCompleted(start, h);
        case JobNotFound =>
          HandlerBound(c, s, h);
          outcome := DlqThenComplete(start, h, w);
          OwnJob(c, s, h);
        case OtherError =>
          outcome := OutcomeFatal;
      }
    }

    // One round of the loop in Start: take a delivery, handle it, then ACK, NACK or close
    // the channel. An ACK is given only after the job was handed over or settled.
    method Serve(ghost start: State, q: Seq, w: World, ackFails: bool)
      returns (outcome: DeliveryOutcome, procErr: ProcessError, at: Status, acked: bool)
      requires Valid() && Leads(c, start, s) && q in s.inFlight && s.inFlight[q].place == Main
      modifies this, jobs, pm
      ensures Valid() && Leads(c, start, s) && old(s).nextHandler !in s.handlers
      ensures var j := old(s).inFlight[q].msg.jobId; acked ==> Superseded(s, q, j) || PmDone(s, j)
      ensures acked == (outcome == OutcomeAck && !ackFails)
      ensures var m := old(s).inFlight[q].msg;
              && m.jobId in old(s).jobs && m.jobId in s.jobs
              && (!w.others ==>
                    HandleAnswer(c, w, m, old(s).clock, old(s).pm, old(s).jobs[m.jobId],
                                 s.pm, s.jobs[m.jobId], outcome, procErr, at))
    {
      hide Inv, Apply, Enabled, Leads, Grows, HandleAnswer;
      var h := s.nextHandler;
      DeliverStep(c, start, s, q);
      s := Apply(c, s, Deliver(q));
      OwnJob(c, s, h);
      Pause(start, h, w.others);
      outcome, procErr, at := Handle(start, h, w);
      acked := outcome == OutcomeAck && !ackFails;
      EndStep(c, start, s, h, acked);
      s := Apply(c, s, if acked then Ack(h) else GiveUp(h));
    }
  }
}
