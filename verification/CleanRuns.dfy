// Runs in which every confirmed retry or deferral reaches its own database
// writes and ACK: crashes before a publish, refused publishes, pipeline errors
// and redeliveries still happen. A job then has exactly one carrier, whose
// attempt is the recorded one, and enters the pipeline at most Limit + 1 times.
module CleanRuns {
  import opened Options
  import opened JobStatus
  import opened Messages
  import opened QueryJobs
  import opened Delivery
  import opened DeliveryFrames
  import opened DeliverySafety
  import opened DeliveryTheorems
  import opened PoliteRuns
  import Pm = Idempotency

  // The delivery has been handed over to a newer message; what is left is its own
  // bookkeeping and the ACK.
  predicate HandsOff(pc: Pc) {
    pc.RetrySent? || pc == MarkingRetry || pc == Acking(true)
  }

  // No fault falls between a confirmed publish and the ACK, the broker does not
  // take a delivery back from a running handler, and an outbox row is published once.
  ghost predicate Clean(c: Config, s: State, l: Label) {
    && Polite(s, l)
    && match l
       case GiveUp(h) => h in s.handlers ==> !HandsOff(s.handlers[h].pc)
       case Disconnect(_) => false
       case Surface(_) => false
       case MainPublish(j) => j !in s.log.newest
       case Defer(_, p) => p != EnteredButFailed
       case SendNext(h, p) => h in s.handlers && s.handlers[h].attempt + 1 <= c.maxRetries ==> p != EnteredButFailed
       case _ => true
  }

  // ---- the invariant -------------------------------------------------------

  predicate Live(s: State, j: JobId) {
    j in s.jobs && !IsTerminal(s.jobs[j].status)
  }

  predicate IsNewest(s: State, q: Seq, j: JobId) {
    j in s.log.newest && s.log.newest[j] == q
  }

  predicate HandedOver(s: State, q: Seq)
    requires q in s.inFlight
  {
    && s.inFlight[q].place.Unacked? && s.inFlight[q].place.holder in s.handlers
    && HandsOff(s.handlers[s.inFlight[q].place.holder].pc)
  }

  predicate Sends(s: State, h: HandlerId, j: JobId) {
    h in s.handlers && s.handlers[h].msg.jobId == j && s.handlers[h].pc.RetrySent?
  }

  ghost predicate Sending(s: State, j: JobId) {
    exists h :: Sends(s, h, j)
  }

  function AttemptOf(s: State, q: Seq): nat
    requires q in s.inFlight
  {
    var a := ExtractAttempt(s.inFlight[q].msg.attempt);
    if a.Some? then a.value else 0
  }

  // Any other message of the job belongs to a handler that has already handed it over.
  ghost predicate OneCarrier(s: State, j: JobId) {
    forall q :: q in s.inFlight && s.inFlight[q].msg.jobId == j ==> IsNewest(s, q, j) || HandedOver(s, q)
  }

  ghost predicate CountOk(s: State, j: JobId)
    requires j in s.jobs
  {
    && (forall h :: Sends(s, h, j) ==> s.handlers[h].attempt == s.jobs[j].attemptCount)
    && (forall q :: q in s.inFlight && IsNewest(s, q, j) ==>
          AttemptOf(s, q) == s.jobs[j].attemptCount + if Sending(s, j) then 1 else 0)
  }

  // How often a job's row has been written, and how often it may still be.
  predicate Bounded(c: Config, s: State, j: JobId)
    requires j in s.jobs
  {
    && j in s.log.path
    && |s.log.path[j]| + 5 * (Limit(c) - s.jobs[j].attemptCount) + Rank(s.jobs[j].status) <= 5 * Limit(c) + 6
  }

  ghost predicate CleanJob(c: Config, s: State, j: JobId) {
    j in s.jobs ==>
      && Bounded(c, s, j) && j in s.log.entries && s.log.entries[j] <= Limit(c) + 1
      && (Live(s, j) ==>
            && OneCarrier(s, j) && CountOk(s, j)
            && s.log.entries[j] == s.jobs[j].attemptCount + (if IsStage(s.jobs[j].status) then 1 else 0)
            && (j !in s.log.newest ==> s.jobs[j].status == Queued && s.jobs[j].attemptCount == 0))
  }

  // Each handler still owns its delivery.
  ghost predicate Deliveries(s: State) {
    forall h :: h in s.handlers ==> s.handlers[h].tag in s.inFlight && s.inFlight[s.handlers[h].tag].place == Unacked(h)
  }

  ghost predicate CleanInv(c: Config, s: State) {
    && s.log.stale == {} && Deliveries(s)
    && (forall j :: CleanJob(c, s, j))
  }

  // ---- frames --------------------------------------------------------------

  predicate SameRow(s: State, s': State, j: JobId) {
    && (j in s.jobs <==> j in s'.jobs) && (j in s.jobs ==> s'.jobs[j] == s.jobs[j])
    && (j in s.log.path <==> j in s'.log.path) && (j in s.log.path ==> s'.log.path[j] == s.log.path[j])
    && (j in s.log.entries <==> j in s'.log.entries) && (j in s.log.entries ==> s'.log.entries[j] == s.log.entries[j])
  }

  ghost predicate OwnTags(s: State, h: HandlerId) {
    h in s.handlers &&
    forall q :: q in s.inFlight && s.inFlight[q].place == Unacked(h) ==>
      q == s.handlers[h].tag && s.inFlight[q].msg.jobId == s.handlers[h].msg.jobId
  }

  // The pc of h moves without starting or ending a hand-over.
  predicate PlainMove(s: State, s': State, h: HandlerId) {
    && h in s.handlers && h in s'.handlers && s'.handlers[h].msg == s.handlers[h].msg
    && (HandsOff(s.handlers[h].pc) ==> HandsOff(s'.handlers[h].pc))
    && (s.handlers[h].pc.RetrySent? <==> s'.handlers[h].pc.RetrySent?)
    && (s.handlers[h].pc.RetrySent? ==> s'.handlers[h].attempt == s.handlers[h].attempt)
  }

  lemma SendsFrame(s: State, s': State, h: HandlerId, j: JobId)
    requires OnlyHandler(s, s', h) && h in s.handlers && h in s'.handlers && s'.handlers[h].msg == s.handlers[h].msg
    requires s.handlers[h].msg.jobId == j ==> PlainMove(s, s', h)
    ensures forall g :: Sends(s, g, j) <==> Sends(s', g, j)
    ensures Sending(s, j) == Sending(s', j)
    ensures forall g :: Sends(s, g, j) ==> s'.handlers[g].attempt == s.handlers[g].attempt
  {
    assert forall g :: Sends(s, g, j) <==> Sends(s', g, j);
  }

  lemma QuietJob(c: Config, s: State, s': State, h: HandlerId, j: JobId)
    requires CleanJob(c, s, j) && SameRow(s, s', j) && s'.inFlight == s.inFlight && s'.log.newest == s.log.newest
    requires OnlyHandler(s, s', h) && OwnTags(s, h) && h in s'.handlers && s'.handlers[h].msg == s.handlers[h].msg
    requires s.handlers[h].msg.jobId == j ==> PlainMove(s, s', h)
    ensures CleanJob(c, s', j)
  {
    SendsFrame(s, s', h, j);
    hide Sends, Sending;
  }

  lemma SameJob(c: Config, s: State, s': State, j: JobId)
    requires CleanJob(c, s, j) && SameRow(s, s', j)
    requires s'.inFlight == s.inFlight && s'.log.newest == s.log.newest && s'.handlers == s.handlers
    ensures CleanJob(c, s', j)
  {
    assert forall g :: Sends(s, g, j) <==> Sends(s', g, j);
    hide Sends;
  }

  // ---- updates of the job row ----------------------------------------------

  function SwapTo(s: State, h: HandlerId, w: Swap): State
    requires h in s.handlers && s.handlers[h].msg.jobId in s.jobs
  {
    Swapped(s, h, w.from, s.jobs[s.handlers[h].msg.jobId := w.row], w.row.status, w.pc)
  }

  predicate SwapFits(s: State, h: HandlerId, w: Swap) {
    && h in s.handlers && s.handlers[h].msg.jobId in s.jobs
    && s.jobs[s.handlers[h].msg.jobId].status == w.from && !IsTerminal(w.from)
    && w.pc != Received
  }

  lemma SwapFits1(s: State, h: HandlerId, w: Swap, j: JobId)
    requires SwapFits(s, h, w) && Deliveries(s)
    ensures var s' := SwapTo(s, h, w);
            && s'.inFlight == s.inFlight && s'.log.newest == s.log.newest && s'.log.stale == s.log.stale
            && OnlyHandler(s, s', h) && h in s'.handlers && s'.handlers[h] == s.handlers[h].(pc := w.pc)
            && (j != s.handlers[h].msg.jobId ==> SameRow(s, s', j))
            && Deliveries(s')
  {
  }

  // Entering the pipeline, or moving on inside it.
  lemma SwapStageClean(c: Config, s: State, h: HandlerId, w: Swap)
    requires SwapFits(s, h, w) && CleanJob(c, s, s.handlers[h].msg.jobId) && OwnTags(s, h)
    requires var r := s.jobs[s.handlers[h].msg.jobId];
             && w.row.attemptCount == r.attemptCount <= Limit(c) && IsStage(w.row.status)
             && (w.row.status == Generating <==> !IsStage(r.status)) && Allowed(w.from, w.row.status)
    requires !HandsOff(s.handlers[h].pc) && !HandsOff(w.pc) && s.handlers[h].msg.jobId in s.log.newest
    ensures CleanJob(c, SwapTo(s, h, w), s.handlers[h].msg.jobId)
  {
    var s', j := SwapTo(s, h, w), s.handlers[h].msg.jobId;
    assert OnlyHandler(s, s', h);
    SendsFrame(s, s', h, j);
    hide Sends, Sending;
  }

  lemma SwapTerminalClean(c: Config, s: State, h: HandlerId, w: Swap)
    requires SwapFits(s, h, w) && CleanJob(c, s, s.handlers[h].msg.jobId) && IsTerminal(w.row.status)
    requires w.row.attemptCount == s.jobs[s.handlers[h].msg.jobId].attemptCount
    ensures CleanJob(c, SwapTo(s, h, w), s.handlers[h].msg.jobId)
  {
    hide CountOk, OneCarrier;
  }

  // The retry count catches up with the attempt already published.
  lemma SwapRetryClean(c: Config, s: State, h: HandlerId, w: Swap)
    requires SwapFits(s, h, w) && CleanJob(c, s, s.handlers[h].msg.jobId) && OwnTags(s, h)
    requires Sends(s, h, s.handlers[h].msg.jobId) && (forall g :: Sends(s, g, s.handlers[h].msg.jobId) ==> g == h)
    requires w.row.status == Retrying && w.row.attemptCount == s.handlers[h].attempt + 1 && w.pc == MarkingRetry
    requires IsStage(w.from) && s.handlers[h].msg.jobId in s.log.newest
    ensures CleanJob(c, SwapTo(s, h, w), s.handlers[h].msg.jobId)
  {
    var s', j := SwapTo(s, h, w), s.handlers[h].msg.jobId;
    assert OnlyHandler(s, s', h);
    forall g ensures !Sends(s', g, j) {
      assert Sends(s, g, j) ==> g == h;
    }
    assert Sending(s, j) && !Sending(s', j);
    hide Sending;
  }

  // ---- a message published by a handler ------------------------------------

  function SendTo(s: State, h: HandlerId, m: Message, pc: Pc): State
    requires h in s.handlers
  {
    Go(Enqueue(s, m, RetryQueue), h, pc)
  }

  predicate SendFits(s: State, h: HandlerId, m: Message) {
    && h in s.handlers && m.jobId == s.handlers[h].msg.jobId && !HandsOff(s.handlers[h].pc)
    && s.nextSeq !in s.inFlight && s.handlers[h].tag in s.inFlight
    && s.inFlight[s.handlers[h].tag].place == Unacked(h) && s.inFlight[s.handlers[h].tag].msg == s.handlers[h].msg
    && ExtractAttempt(s.handlers[h].msg.attempt) == Some(s.handlers[h].attempt)
  }

  lemma SendCarrier(s: State, h: HandlerId, m: Message, pc: Pc, j: JobId)
    requires SendFits(s, h, m) && HandsOff(pc) && OneCarrier(s, j) && OwnTags(s, h)
    requires forall i :: i in s.log.newest ==> s.log.newest[i] != s.nextSeq
    ensures OneCarrier(SendTo(s, h, m, pc), j)
  {
    var s' := SendTo(s, h, m, pc);
    assert j == m.jobId ==> IsNewest(s, s.handlers[h].tag, j);
    forall q | q in s'.inFlight && s'.inFlight[q].msg.jobId == j ensures IsNewest(s', q, j) || HandedOver(s', q) {
      if q != s.nextSeq {
        assert q in s.inFlight && s'.inFlight[q] == s.inFlight[q];
      }
    }
  }

  // The published attempt is the recorded one, plus one while a retry is on its way.
  lemma SendCount(s: State, h: HandlerId, m: Message, pc: Pc)
    requires SendFits(s, h, m) && m.jobId in s.jobs && OneCarrier(s, m.jobId) && CountOk(s, m.jobId)
    requires forall g :: !Sends(s, g, m.jobId)
    requires pc.RetrySent? || pc == Acking(true)
    requires ExtractAttempt(m.attempt) == Some(s.handlers[h].attempt + if pc.RetrySent? then 1 else 0)
    ensures CountOk(SendTo(s, h, m, pc), m.jobId)
  {
    var s', j := SendTo(s, h, m, pc), m.jobId;
    assert IsNewest(s, s.handlers[h].tag, j);
    assert !Sending(s, j);
    assert s.handlers[h].attempt == s.jobs[j].attemptCount;
    forall g ensures Sends(s', g, j) <==> g == h && pc.RetrySent? {
      assert !Sends(s, g, j);
    }
    assert Sending(s', j) == pc.RetrySent? by { assert pc.RetrySent? ==> Sends(s', h, j); }
    hide Sends, Sending;
  }

  // With a retry of the job on its way, the copy a deferred delivery publishes is the same attempt.
  lemma DeferCount(s: State, h: HandlerId, m: Message)
    requires SendFits(s, h, m) && m.jobId in s.jobs && OneCarrier(s, m.jobId) && CountOk(s, m.jobId)
    requires ExtractAttempt(m.attempt) == Some(s.handlers[h].attempt)
    ensures CountOk(SendTo(s, h, m, Acking(true)), m.jobId)
  {
    var s', j := SendTo(s, h, m, Acking(true)), m.jobId;
    assert IsNewest(s, s.handlers[h].tag, j);
    assert forall g :: Sends(s', g, j) <==> Sends(s, g, j);
    assert Sending(s', j) == Sending(s, j);
    assert forall g :: Sends(s, g, j) ==> s'.handlers[g] == s.handlers[g];
    hide Sends, Sending;
  }

  lemma SendClean(c: Config, s: State, h: HandlerId, m: Message, pc: Pc, j: JobId)
    requires SendFits(s, h, m) && HandsOff(pc) && CleanJob(c, s, j) && OwnTags(s, h)
    requires forall i :: i in s.log.newest ==> s.log.newest[i] != s.nextSeq
    requires m.jobId in s.jobs && Live(s, m.jobId) && j == m.jobId ==> CountOk(SendTo(s, h, m, pc), j)
    ensures CleanJob(c, SendTo(s, h, m, pc), j)
  {
    var s' := SendTo(s, h, m, pc);
    if Live(s, j) {
      SendCarrier(s, h, m, pc, j);
      if j != m.jobId {
        OtherCount(s, h, m, pc, j);
      }
    }
    hide OneCarrier, CountOk;
  }

  lemma OtherCount(s: State, h: HandlerId, m: Message, pc: Pc, j: JobId)
    requires SendFits(s, h, m) && j in s.jobs && CountOk(s, j) && j != m.jobId
    requires forall i :: i in s.log.newest ==> s.log.newest[i] != s.nextSeq
    ensures CountOk(SendTo(s, h, m, pc), j)
  {
    var s' := SendTo(s, h, m, pc);
    assert forall g :: Sends(s', g, j) <==> Sends(s, g, j);
    assert forall g :: Sends(s, g, j) ==> s'.handlers[g] == s.handlers[g];
    hide Sends;
  }

  // ---- deliveries come and go ----------------------------------------------

  lemma GiveUpClean(c: Config, s: State, h: HandlerId, j: JobId)
    requires OwnTags(s, h) && !HandsOff(s.handlers[h].pc) && CleanJob(c, s, j)
    ensures CleanJob(c, s.(inFlight := Returned(s, h), handlers := s.handlers - {h}), j)
  {
    var s' := s.(inFlight := Returned(s, h), handlers := s.handlers - {h});
    assert forall g :: Sends(s', g, j) <==> Sends(s, g, j);
    assert Sending(s', j) == Sending(s, j);
    hide Sends, Sending;
  }

  lemma AckClean(c: Config, s: State, h: HandlerId, j: JobId)
    requires OwnTags(s, h) && !s.handlers[h].pc.RetrySent? && CleanJob(c, s, j)
    ensures CleanJob(c, s.(inFlight := Acked(s, h), handlers := s.handlers - {h}), j)
  {
    var s' := s.(inFlight := Acked(s, h), handlers := s.handlers - {h});
    assert forall g :: Sends(s', g, j) <==> Sends(s, g, j);
    assert Sending(s', j) == Sending(s, j);
    assert forall q :: q in s'.inFlight ==> q in s.inFlight && s'.inFlight[q] == s.inFlight[q];
    hide Sends, Sending;
  }

  lemma PlaceClean(c: Config, s: State, q: Seq, j: JobId)
    requires q in s.inFlight && !s.inFlight[q].place.Unacked? && CleanJob(c, s, j)
    ensures CleanJob(c, s.(inFlight := s.inFlight[q := s.inFlight[q].(place := Main)]), j)
  {
    var s' := s.(inFlight := s.inFlight[q := s.inFlight[q].(place := Main)]);
    assert forall g :: Sends(s', g, j) <==> Sends(s, g, j);
    hide Sends;
  }

  lemma DeliverClean(c: Config, s: State, q: Seq, j: JobId)
    requires q in s.inFlight && s.inFlight[q].place == Main && CleanJob(c, s, j) && s.nextHandler !in s.handlers
    ensures CleanJob(c, AfterDeliver(s, q), j)
  {
    var s' := AfterDeliver(s, q);
    assert forall g :: Sends(s', g, j) <==> Sends(s, g, j);
    assert Sending(s', j) == Sending(s, j);
    assert forall g :: g in s.handlers ==> g in s'.handlers && s'.handlers[g] == s.handlers[g];
    hide Sends, Sending;
  }

  // Before the first publish a job has no message and no handler.
  ghost predicate Unheard(s: State, j: JobId) {
    && j !in s.log.newest
    && (forall q :: q in s.inFlight ==> s.inFlight[q].msg.jobId != j)
    && (forall h :: h in s.handlers ==> s.handlers[h].msg.jobId != j)
  }

  lemma FirstPublishClean(c: Config, s: State, m: Message, k: JobId)
    requires Unheard(s, m.jobId) && ExtractAttempt(m.attempt) == Some(0) && CleanJob(c, s, k)
    requires s.nextSeq !in s.inFlight && forall i :: i in s.log.newest ==> s.log.newest[i] != s.nextSeq
    ensures CleanJob(c, Enqueue(s, m, Main), k)
  {
    var s' := Enqueue(s, m, Main);
    assert forall g :: Sends(s', g, k) <==> Sends(s, g, k);
    assert Sending(s', k) == Sending(s, k);
    assert k == m.jobId ==> !Sending(s, k);
    hide Sends, Sending;
  }

  lemma SubmitClean(c: Config, s: State, j: JobId, m: MessageId, owner: nat, k: JobId)
    requires j !in s.jobs && Unheard(s, j) && CleanJob(c, s, k)
    ensures CleanJob(c, AfterSubmit(s, j, m, owner), k)
  {
    var s' := AfterSubmit(s, j, m, owner);
    if k == j {
      assert forall g :: !Sends(s', g, k);
      assert !Sending(s', k);
      hide Sends, Sending;
    } else {
      SameJob(c, s, s', k);
    }
  }

  // ---- facts of the general invariant --------------------------------------

  lemma Ownership(c: Config, s: State, h: HandlerId)
    requires Inv(c, s) && h in s.handlers
    ensures OwnTags(s, h) && s.handlers[h].msg.jobId in s.log.newest && s.handlers[h].msg.jobId in s.jobs
    ensures s.jobs[s.handlers[h].msg.jobId].attemptCount <= Limit(c)
    ensures s.handlers[h].pc != Received ==> ExtractAttempt(s.handlers[h].msg.attempt) == Some(s.handlers[h].attempt)
    ensures s.handlers[h].tag in s.inFlight && s.inFlight[s.handlers[h].tag].place == Unacked(h)
            ==> s.inFlight[s.handlers[h].tag].msg == s.handlers[h].msg
  {
    hide Inv, PcOk, ExtractAttempt;
    HandlerFacts(c, s, h);
    forall q | q in s.inFlight && s.inFlight[q].place == Unacked(h)
      ensures q == s.handlers[h].tag && s.inFlight[q].msg == s.handlers[h].msg
    {
      OwnDelivery(c, s, h, q);
    }
    HandlerMessage(c, s, h);
  }

  lemma FreshSeq(c: Config, s: State)
    requires Inv(c, s)
    ensures s.nextSeq !in s.inFlight && s.nextHandler !in s.handlers
    ensures forall i :: i in s.log.newest ==> s.log.newest[i] != s.nextSeq
  {
    hide HandlerOk, Ids, PmRows, Tokens, Jobs, Cache, PublishedOk, Carried, PmDone;
  }

  lemma UnheardBefore(c: Config, s: State, j: JobId)
    requires Inv(c, s) && j !in s.log.newest
    ensures Unheard(s, j)
  {
    hide Ids, PmRows, Tokens, Jobs, Cache, Carriers, PcOk, MessageOk;
  }

  lemma NewestIsKnown(c: Config, s: State, j: JobId)
    requires Inv(c, s) && j !in s.jobs
    ensures j !in s.log.newest
  {
    hide Handlers, Envelopes, PmRows, Tokens, Jobs, Cache, Carried, PmDone;
  }

  // ---- the stale-attempt branch is never taken ------------------------------

  // Only one handler works on the job, so only the acting one can be sending for it.
  lemma OnlySender(c: Config, s: State, h: HandlerId)
    requires Inv(c, s) && PoliteInv(s) && Works(s, h)
    ensures forall g :: Sends(s, g, s.handlers[h].msg.jobId) ==> g == h
    ensures !s.handlers[h].pc.RetrySent? ==> !Sending(s, s.handlers[h].msg.jobId)
  {
    hide Inv, PoliteInv;
    forall g | Sends(s, g, s.handlers[h].msg.jobId) ensures g == h {
      Exclusive(c, s, g, h);
    }
  }

  lemma OwnIsNewest(c: Config, s: State, h: HandlerId)
    requires h in s.handlers && !HandsOff(s.handlers[h].pc) && !Sending(s, s.handlers[h].msg.jobId)
    requires CleanJob(c, s, s.handlers[h].msg.jobId) && Live(s, s.handlers[h].msg.jobId) && Deliveries(s)
    requires s.handlers[h].tag in s.inFlight ==> s.inFlight[s.handlers[h].tag].msg == s.handlers[h].msg
    requires ExtractAttempt(s.handlers[h].msg.attempt) == Some(s.handlers[h].attempt)
    ensures s.handlers[h].attempt == s.jobs[s.handlers[h].msg.jobId].attemptCount
  {
    hide Sends, Sending;
    assert IsNewest(s, s.handlers[h].tag, s.handlers[h].msg.jobId);
  }

  lemma LoadFindsItsAttempt(c: Config, s: State, h: HandlerId)
    requires Inv(c, s) && PoliteInv(s) && CleanInv(c, s) && At(s, h, Loading)
    ensures LoadPc(s, s.handlers[h]) != Completing(StaleAttempt)
  {
    hide Inv, PoliteInv, CleanJob, Sending;
    Ownership(c, s, h);
    OnlySender(c, s, h);
    if LoadPc(s, s.handlers[h]) == Completing(StaleAttempt) {
      OwnIsNewest(c, s, h);
    }
  }

  // ---- every clean step ----------------------------------------------------

  lemma QuietClean(c: Config, s: State, s': State, h: HandlerId)
    requires CleanInv(c, s) && HandlerFrame(s, s', h) && SameJobs(s, s') && SameQueue(s, s')
    requires OwnTags(s, h) && PlainMove(s, s', h) && s'.log.stale == {}
    ensures CleanInv(c, s')
  {
    hide CleanJob, PlainMove;
    forall j ensures CleanJob(c, s', j) {
      assert CleanJob(c, s, j);
      QuietJob(c, s, s', h, j);
    }
  }

  // Neither a lease operation nor a pipeline step starts or ends a hand-over.
  lemma LeaseMove(c: Config, s: State, l: Label)
    requires Enabled(s, l) && PmLabel(l) && (Works(s, l.h) ==> HoldsRow(s, s.handlers[l.h]))
    ensures PlainMove(s, Apply(c, s, l), l.h)
  {
    hide AfterVerdict, Pm.Verdict, Pm.Claimed, ValidEnvelope, ExtractAttempt, WrapUint8,
         Pm.Renewed, Pm.MarkedRetry, Pm.MarkedCompleted;
    if l.Claim? {
      VerdictMove(Pm.Verdict(s.pm, s.handlers[l.h].msg.messageId, s.handlers[l.h].msg.kind, s.handlers[l.h].msg.jobId, s.clock));
    }
  }

  lemma VerdictMove(v: Pm.ClaimResult)
    ensures !AfterVerdict(v).RetrySent?
  {
  }

  lemma LoadMove(s: State, h: HandlerId)
    requires At(s, h, Loading)
    ensures PlainMove(s, AfterLoad(s, h), h)
  {
  }

  lemma StoreMove(c: Config, s: State, h: HandlerId, rows: nat, now: Time, p: Publish)
    requires h in s.handlers && s.handlers[h].pc.Stage?
    ensures PlainMove(s, AfterStore(c, s, h, rows, now, p), h)
    ensures PlainMove(s, Go(s, h, Rescheduling(s.handlers[h].pc.at)), h)
  {
  }

  lemma WorkMove(c: Config, s: State, l: Label)
    requires Enabled(s, l) && (l.Load? || l.Hiccup? || l.StoreResult?)
    ensures PlainMove(s, Apply(c, s, l), l.h)
  {
    hide AfterLoad, AfterStore, Go, PlainMove;
    match l {
      case Load(h) => LoadMove(s, h);
      case Hiccup(h) => StoreMove(c, s, h, 0, 0, NotEntered);
      case StoreResult(h, rows, now, p) => StoreMove(c, s, h, rows, now, p);
    }
  }

  lemma ActorHolds(s: State, l: Label)
    requires PoliteInv(s) && Enabled(s, l) && HandlerLabel(l)
    ensures l.h in s.handlers && (Works(s, l.h) ==> HoldsRow(s, s.handlers[l.h]))
  {
    hide HoldsRow, StageOk;
  }

  lemma WorkClean(c: Config, s: State, l: Label)
    requires Inv(c, s) && PoliteInv(s) && CleanInv(c, s) && Enabled(s, l)
    requires PmLabel(l) || l.Load? || l.Hiccup? || l.StoreResult?
    ensures CleanInv(c, Apply(c, s, l))
  {
    hide Inv, PoliteInv, CleanInv, Enabled, Apply, HoldsRow, Works, SameJobs, SameQueue, SameCache, HandlerFrame, PlainMove,
         OwnTags;
    ActorHolds(s, l);
    if PmLabel(l) {
      LeaseMove(c, s, l);
    } else {
      WorkMove(c, s, l);
    }
    WorkNotStale(c, s, l);
    StepFrame(c, s, l);
    OwnTagsOf(c, s, l.h);
    QuietClean(c, s, Apply(c, s, l), l.h);
  }

  lemma OwnTagsOf(c: Config, s: State, h: HandlerId)
    requires Inv(c, s) && h in s.handlers
    ensures OwnTags(s, h)
  {
    hide Inv, OwnTags;
    Ownership(c, s, h);
  }

  lemma WorkNotStale(c: Config, s: State, l: Label)
    requires Inv(c, s) && PoliteInv(s) && CleanInv(c, s) && Enabled(s, l)
    ensures Apply(c, s, l).log.stale == {}
  {
    hide Inv, PoliteInv, CleanJob, LoadPc;
    if l.Load? {
      LoadFindsItsAttempt(c, s, l.h);
    } else {
      hide Apply;
      StaleFrame(c, s, l);
    }
  }

  // An update of the job row, in the three shapes a handler has.
  predicate SwapKinds(s: State, h: HandlerId, w: Swap)
    requires h in s.handlers && s.handlers[h].msg.jobId in s.jobs
  {
    var x, r := s.handlers[h], s.jobs[s.handlers[h].msg.jobId];
    || (IsTerminal(w.row.status) && w.pc.Completing? && w.row.attemptCount == r.attemptCount)
    || (IsStage(w.row.status) && w.row.attemptCount == r.attemptCount && Allowed(w.from, w.row.status)
        && (w.row.status == Generating <==> !IsStage(r.status)) && !HandsOff(x.pc) && !HandsOff(w.pc))
    || (w.row.status == Retrying && IsStage(w.from) && x.pc.RetrySent? && w.pc == MarkingRetry
        && w.row.attemptCount == x.attempt + 1)
  }

  lemma SwapKind(c: Config, s: State, l: Label)
    requires c.maxRetries <= MAX_SANE_ATTEMPT
    requires Enabled(s, l) && SwapLabel(l) && StageOk(s, s.handlers[l.h]) && PcOk(c, s, s.handlers[l.h])
    ensures l.h in s.handlers && s.handlers[l.h].msg.jobId in s.jobs
    ensures SwapFits(s, l.h, SwapOf(c, s, l)) && SwapKinds(s, l.h, SwapOf(c, s, l))
  {
    hide Agrees, Kept, DlqHas, NextAttempt;
    if l.RecordRetry? {
      NextAttemptExact(c, s.handlers[l.h].attempt);
    }
  }

  lemma SwapJobClean(c: Config, s: State, h: HandlerId, w: Swap)
    requires SwapFits(s, h, w) && SwapKinds(s, h, w) && CleanJob(c, s, s.handlers[h].msg.jobId) && OwnTags(s, h)
    requires s.jobs[s.handlers[h].msg.jobId].attemptCount <= Limit(c) && s.handlers[h].msg.jobId in s.log.newest
    requires forall g :: Sends(s, g, s.handlers[h].msg.jobId) ==> g == h
    ensures CleanJob(c, SwapTo(s, h, w), s.handlers[h].msg.jobId)
  {
    hide CleanJob, OwnTags, SwapTo;
    if IsTerminal(w.row.status) {
      SwapTerminalClean(c, s, h, w);
    } else if IsStage(w.row.status) {
      SwapStageClean(c, s, h, w);
    } else {
      SwapRetryClean(c, s, h, w);
    }
  }

  lemma SwapToClean(c: Config, s: State, h: HandlerId, w: Swap)
    requires SwapFits(s, h, w) && SwapKinds(s, h, w) && CleanInv(c, s) && OwnTags(s, h)
    requires s.jobs[s.handlers[h].msg.jobId].attemptCount <= Limit(c) && s.handlers[h].msg.jobId in s.log.newest
    requires forall g :: Sends(s, g, s.handlers[h].msg.jobId) ==> g == h
    ensures CleanInv(c, SwapTo(s, h, w))
  {
    hide CleanJob, OwnTags, SwapTo, SwapKinds;
    forall j ensures CleanJob(c, SwapTo(s, h, w), j) {
      assert CleanJob(c, s, j);
      SwapFits1(s, h, w, j);
      if j == s.handlers[h].msg.jobId {
        SwapJobClean(c, s, h, w);
      } else {
        QuietJob(c, s, SwapTo(s, h, w), h, j);
      }
    }
    SwapFits1(s, h, w, 0);
  }

  lemma SwapClean(c: Config, s: State, l: Label)
    requires c.maxRetries <= MAX_SANE_ATTEMPT
    requires Inv(c, s) && PoliteInv(s) && CleanInv(c, s) && Enabled(s, l) && SwapLabel(l)
    ensures CleanInv(c, Apply(c, s, l))
  {
    hide Inv, PoliteInv, CleanInv, Enabled, Apply, SwapOf, StageOk, OwnTags, SwapFits, SwapKinds,
         Swapped, HandlerOk, RowOk, Working;
    SwapShape(c, s, l);
    ApplySwap(c, s, l);
    SwapActor(c, s, l.h);
    SwapKind(c, s, l);
    SwapFrom(s, l.h, SwapOf(c, s, l));
    SwapToClean(c, s, l.h, SwapOf(c, s, l));
  }

  lemma SwapFrom(s: State, h: HandlerId, w: Swap)
    requires SwapFits(s, h, w)
    ensures s.jobs[s.handlers[h].msg.jobId].status == w.from
  {
  }

  // Everything the invariants say about a working handler.
  lemma SwapActor(c: Config, s: State, h: HandlerId)
    requires Inv(c, s) && PoliteInv(s) && h in s.handlers && Working(s.handlers[h].pc)
    ensures StageOk(s, s.handlers[h]) && PcOk(c, s, s.handlers[h]) && OwnTags(s, h)
    ensures s.handlers[h].msg.jobId in s.jobs && s.handlers[h].msg.jobId in s.log.newest
    ensures s.jobs[s.handlers[h].msg.jobId].attemptCount <= Limit(c)
    ensures forall g :: Sends(s, g, s.handlers[h].msg.jobId) ==> g == h
  {
    hide Inv, StageOk, PcOk, OwnTags, HandlerOk, RowOk, Sends;
    assert Works(s, h);
    Ownership(c, s, h);
    HandlerFacts(c, s, h);
    OnlySender(c, s, h);
  }

  // ---- publishing ----------------------------------------------------------

  lemma WorkerAttempt(j: JobId, m: MessageId, a: nat)
    requires a <= MAX_SANE_ATTEMPT
    ensures ExtractAttempt(WorkerMessage(j, m, a).attempt) == Some(a)
  {
  }

  lemma SendToClean(c: Config, s: State, h: HandlerId, m: Message, pc: Pc)
    requires CleanInv(c, s) && SendFits(s, h, m) && OwnTags(s, h) && HandsOff(pc)
    requires s.log.stale == {} && s.nextSeq !in s.inFlight && forall i :: i in s.log.newest ==> s.log.newest[i] != s.nextSeq
    requires m.jobId in s.jobs && Live(s, m.jobId) ==> CountOk(SendTo(s, h, m, pc), m.jobId)
    ensures CleanInv(c, SendTo(s, h, m, pc))
  {
    assert Deliveries(SendTo(s, h, m, pc)) by { hide CleanJob, OwnTags, HandsOff; }
    hide CleanJob, CountOk, SendFits, SendTo, OwnTags;
    forall j ensures CleanJob(c, SendTo(s, h, m, pc), j) {
      assert CleanJob(c, s, j);
      SendClean(c, s, h, m, pc, j);
    }
    assert SendTo(s, h, m, pc).log.stale == {} by { SendToLog(s, h, m, pc); }
  }

  lemma SendToLog(s: State, h: HandlerId, m: Message, pc: Pc)
    requires h in s.handlers
    ensures SendTo(s, h, m, pc).log.stale == s.log.stale
  {
  }

  lemma SendReady(c: Config, s: State, h: HandlerId, m: Message)
    requires Inv(c, s) && Deliveries(s) && h in s.handlers && s.handlers[h].pc != Received && !HandsOff(s.handlers[h].pc)
    requires m.jobId == s.handlers[h].msg.jobId
    ensures SendFits(s, h, m) && OwnTags(s, h) && m.jobId in s.jobs
    ensures s.nextSeq !in s.inFlight && forall i :: i in s.log.newest ==> s.log.newest[i] != s.nextSeq
    ensures c.maxRetries <= MAX_SANE_ATTEMPT ==> s.handlers[h].attempt <= MAX_SANE_ATTEMPT
  {
    hide Inv, OwnTags, ValidEnvelope;
    Ownership(c, s, h);
    FreshSeq(c, s);
    HandlerMessage(c, s, h);
  }

  lemma DeferSentClean(c: Config, s: State, h: HandlerId, m: Message)
    requires Inv(c, s) && CleanInv(c, s) && At(s, h, Deferring)
    requires m.jobId == s.handlers[h].msg.jobId && ExtractAttempt(m.attempt) == Some(s.handlers[h].attempt)
    ensures CleanInv(c, SendTo(s, h, m, Acking(true)))
  {
    hide Inv, CleanInv, CleanJob, SendFits, OwnTags, OneCarrier, CountOk, SendTo, ExtractAttempt, Deliveries, Live;
    StaleEmpty(c, s);
    SendReady(c, s, h, m);
    if Live(s, m.jobId) {
      LiveJob(c, s, m.jobId);
      DeferCount(s, h, m);
    }
    SendToClean(c, s, h, m, Acking(true));
  }

  lemma NotEnteredQuiet(s: State, h: HandlerId, m: Message, pc: Pc)
    requires h in s.handlers && !HandsOff(s.handlers[h].pc)
    ensures var s' := Published(s, h, m, NotEntered, pc);
            && HandlerFrame(s, s', h) && SameJobs(s, s') && SameQueue(s, s') && PlainMove(s, s', h)
            && s'.log.stale == s.log.stale
  {
  }

  lemma DeferClean(c: Config, s: State, h: HandlerId, p: Publish)
    requires c.maxRetries <= MAX_SANE_ATTEMPT && p != EnteredButFailed
    requires Inv(c, s) && CleanInv(c, s) && At(s, h, Deferring)
    ensures var x := s.handlers[h];
            CleanInv(c, Published(s, h, WorkerMessage(x.msg.jobId, x.msg.messageId, x.attempt), p, Acking(true)))
  {
    hide Inv, CleanInv, SendFits, OwnTags, ExtractAttempt, WorkerMessage, Deliveries;
    var x, m := s.handlers[h], WorkerMessage(s.handlers[h].msg.jobId, s.handlers[h].msg.messageId, s.handlers[h].attempt);
    WorkerJob(x.msg.jobId, x.msg.messageId, x.attempt);
    StaleEmpty(c, s);
    if p == Confirmed {
      SendReady(c, s, h, m);
      WorkerAttempt(x.msg.jobId, x.msg.messageId, x.attempt);
      DeferSentClean(c, s, h, m);
    } else {
      NotEnteredQuiet(s, h, m, Acking(true));
      OwnTagsOf(c, s, h);
      hide SameJobs, SameQueue, SameCache, HandlerFrame, Published, PlainMove;
      QuietClean(c, s, Published(s, h, m, NotEntered, Acking(true)), h);
    }
  }

  lemma LiveJob(c: Config, s: State, j: JobId)
    requires CleanInv(c, s) && Live(s, j)
    ensures OneCarrier(s, j) && CountOk(s, j)
  {
    assert CleanJob(c, s, j);
  }

  // A retry leaves with the recorded attempt plus one.
  lemma RetryClean(c: Config, s: State, h: HandlerId, m: Message, pc: Pc)
    requires Inv(c, s) && CleanInv(c, s) && h in s.handlers && s.handlers[h].pc.Rescheduling?
    requires m.jobId == s.handlers[h].msg.jobId && pc.RetrySent?
    requires forall g :: !Sends(s, g, m.jobId)
    requires ExtractAttempt(m.attempt) == Some(s.handlers[h].attempt + 1)
    ensures CleanInv(c, SendTo(s, h, m, pc))
  {
    hide Inv, CleanInv, CleanJob, SendFits, OwnTags, OneCarrier, CountOk, SendTo, ExtractAttempt, Deliveries, Live, Sends;
    StaleEmpty(c, s);
    SendReady(c, s, h, m);
    if Live(s, m.jobId) {
      LiveJob(c, s, m.jobId);
      SendCount(s, h, m, pc);
    }
    SendToClean(c, s, h, m, pc);
  }

  lemma LogClean(c: Config, s: State, t: State)
    requires CleanInv(c, s) && t == s.(log := s.log.(sent := t.log.sent))
    ensures CleanInv(c, t)
  {
    hide CleanJob;
    forall j ensures CleanJob(c, t, j) {
      assert CleanJob(c, s, j);
      SameJob(c, s, t, j);
    }
  }

  lemma NoSender(c: Config, s: State, h: HandlerId)
    requires Inv(c, s) && PoliteInv(s) && h in s.handlers && s.handlers[h].pc.Rescheduling?
    ensures forall g :: !Sends(s, g, s.handlers[h].msg.jobId)
  {
    hide Inv, PoliteInv;
    assert Works(s, h);
    OnlySender(c, s, h);
  }

  lemma RetrySentClean(c: Config, s: State, h: HandlerId)
    requires c.maxRetries <= MAX_SANE_ATTEMPT && Inv(c, s) && PoliteInv(s) && CleanInv(c, s)
    requires h in s.handlers && s.handlers[h].pc.Rescheduling? && s.handlers[h].attempt + 1 <= c.maxRetries
    ensures CleanInv(c, AfterSendNext(c, s, h, Confirmed))
  {
    hide Inv, PoliteInv, CleanInv, WorkerMessage, ExtractAttempt, NextAttempt;
    var x := s.handlers[h];
    var j, next := x.msg.jobId, NextAttempt(x.attempt);
    var t, m := s.(log := s.log.(sent := s.log.sent + {(j, next)})), WorkerMessage(j, x.msg.messageId, next);
    assert AfterSendNext(c, s, h, Confirmed) == SendTo(t, h, m, RetrySent(x.pc.from));
    NextAttemptExact(c, x.attempt);
    WorkerAttempt(j, x.msg.messageId, next);
    WorkerJob(j, x.msg.messageId, next);
    LogKeeps(c, s, t);
    LogClean(c, s, t);
    NoSender(c, s, h);
    assert forall g :: Sends(t, g, j) ==> Sends(s, g, j);
    hide AfterSendNext, SendTo, Grows, Sends;
    RetryClean(c, t, h, m, RetrySent(x.pc.from));
  }

  lemma SendNextClean(c: Config, s: State, h: HandlerId, p: Publish)
    requires c.maxRetries <= MAX_SANE_ATTEMPT && Inv(c, s) && PoliteInv(s) && CleanInv(c, s)
    requires h in s.handlers && s.handlers[h].pc.Rescheduling?
    requires s.handlers[h].attempt + 1 <= c.maxRetries ==> p != EnteredButFailed
    ensures CleanInv(c, AfterSendNext(c, s, h, p))
  {
    hide Inv, PoliteInv, CleanInv, OwnTags, AfterSendNext, Deliveries, SameJobs, SameQueue, HandlerFrame, PlainMove;
    if s.handlers[h].attempt + 1 <= c.maxRetries && p == Confirmed {
      RetrySentClean(c, s, h);
    } else {
      SendNextStale(c, s, h, p);
      QuietSend(c, s, h, p);
      StaleEmpty(c, s);
      OwnTagsOf(c, s, h);
      QuietClean(c, s, AfterSendNext(c, s, h, p), h);
    }
  }

  lemma StaleEmpty(c: Config, s: State)
    requires CleanInv(c, s)
    ensures s.log.stale == {} && Deliveries(s)
  {
  }

  lemma WorkerJob(j: JobId, m: MessageId, a: nat)
    ensures WorkerMessage(j, m, a).jobId == j
  {
  }

  lemma QuietSend(c: Config, s: State, h: HandlerId, p: Publish)
    requires h in s.handlers && s.handlers[h].pc.Rescheduling?
    requires s.handlers[h].attempt + 1 <= c.maxRetries ==> p == NotEntered
    ensures var s' := AfterSendNext(c, s, h, p);
            HandlerFrame(s, s', h) && SameJobs(s, s') && SameQueue(s, s') && PlainMove(s, s', h)
  {
    hide WorkerMessage, NextAttempt;
  }

  // ---- steps outside the pipeline ------------------------------------------

  lemma EndClean(c: Config, s: State, h: HandlerId, acked: bool)
    requires CleanInv(c, s) && OwnTags(s, h)
    requires if acked then s.handlers[h].pc.Acking? else !HandsOff(s.handlers[h].pc)
    ensures CleanInv(c, s.(inFlight := if acked then Acked(s, h) else Returned(s, h), handlers := s.handlers - {h}))
  {
    var s' := s.(inFlight := if acked then Acked(s, h) else Returned(s, h), handlers := s.handlers - {h});
    assert Deliveries(s') by { hide CleanJob, OwnTags, HandsOff; }
    hide CleanJob, OwnTags;
    forall j ensures CleanJob(c, s', j) {
      assert CleanJob(c, s, j);
      if acked {
        AckClean(c, s, h, j);
      } else {
        GiveUpClean(c, s, h, j);
      }
    }
  }

  lemma QueueClean(c: Config, s: State, l: Label)
    requires CleanInv(c, s) && Enabled(s, l) && (l.RetryExpire? || l.Deliver?) && s.nextHandler !in s.handlers
    ensures CleanInv(c, Apply(c, s, l))
  {
    var s' := Apply(c, s, l);
    assert Deliveries(s') by { hide CleanJob; }
    hide CleanJob;
    forall j ensures CleanJob(c, s', j) {
      assert CleanJob(c, s, j);
      if l.Deliver? {
        DeliverClean(c, s, l.q, j);
      } else {
        PlaceClean(c, s, l.q, j);
      }
    }
  }

  lemma FirstMessage(c: Config, s: State, m: Message)
    requires CleanInv(c, s) && Unheard(s, m.jobId) && ExtractAttempt(m.attempt) == Some(0)
    requires s.nextSeq !in s.inFlight && forall i :: i in s.log.newest ==> s.log.newest[i] != s.nextSeq
    ensures CleanInv(c, Enqueue(s, m, Main))
  {
    hide CleanJob, ExtractAttempt;
    forall k ensures CleanJob(c, Enqueue(s, m, Main), k) {
      assert CleanJob(c, s, k);
      FirstPublishClean(c, s, m, k);
    }
  }

  lemma NewJob(c: Config, s: State, j: JobId, m: MessageId, owner: nat)
    requires CleanInv(c, s) && j !in s.jobs && Unheard(s, j)
    ensures CleanInv(c, AfterSubmit(s, j, m, owner))
  {
    hide CleanJob;
    forall k ensures CleanJob(c, AfterSubmit(s, j, m, owner), k) {
      assert CleanJob(c, s, k);
      SubmitClean(c, s, j, m, owner, k);
    }
  }

  lemma AsideClean(c: Config, s: State, l: Label)
    requires CleanInv(c, s) && Enabled(s, l) && (l.Tick? || l.Evict?)
    ensures CleanInv(c, Apply(c, s, l))
  {
    var s' := Apply(c, s, l);
    hide CleanJob;
    forall k ensures CleanJob(c, s', k) {
      assert CleanJob(c, s, k);
      SameJob(c, s, s', k);
    }
  }

  lemma OutboxAttempt(j: JobId, m: MessageId)
    ensures ExtractAttempt(OutboxMessage(j, m).attempt) == Some(0) && OutboxMessage(j, m).jobId == j
  {
  }

  lemma OutsideClean(c: Config, s: State, l: Label)
    requires Inv(c, s) && CleanInv(c, s) && Enabled(s, l) && Clean(c, s, l) && !HandlerLabel(l)
    ensures CleanInv(c, Apply(c, s, l))
  {
    hide Inv, CleanInv, ExtractAttempt, OutboxMessage, OwnTags, Unheard, AfterSubmit, AfterDeliver, Polite, Acked, Returned;
    FreshSeq(c, s);
    match l {
      case MainPublish(j) =>
        UnheardBefore(c, s, j);
        OutboxAttempt(j, s.ids[j]);
        FirstMessage(c, s, OutboxMessage(j, s.ids[j]));
      case Submit(j, m, owner) =>
        NewestIsKnown(c, s, j);
        UnheardBefore(c, s, j);
        NewJob(c, s, j, m, owner);
      case GiveUp(h) =>
        OwnTagsOf(c, s, h);
        EndClean(c, s, h, false);
      case Ack(h) =>
        OwnTagsOf(c, s, h);
        EndClean(c, s, h, true);
      case _ =>
        hide Apply, Enabled;
        if l.Tick? || l.Evict? {
          AsideClean(c, s, l);
        } else {
          QueueClean(c, s, l);
        }
    }
  }

  lemma CleanStep(c: Config, s: State, l: Label)
    requires c.maxRetries <= MAX_SANE_ATTEMPT
    requires Inv(c, s) && PoliteInv(s) && CleanInv(c, s) && Enabled(s, l) && Clean(c, s, l)
    ensures CleanInv(c, Apply(c, s, l))
  {
    hide Inv, PoliteInv, CleanInv, Published, WorkerMessage, AfterSendNext;
    if l.Defer? {
      DeferClean(c, s, l.h, l.p);
    } else if l.SendNext? {
      SendNextClean(c, s, l.h, l.p);
    } else {
      hide Apply, Enabled;
      if !HandlerLabel(l) {
        OutsideClean(c, s, l);
      } else if SwapLabel(l) {
        SwapClean(c, s, l);
      } else {
        ImpossibleSteps(c, s, l);
        WorkClean(c, s, l);
      }
    }
  }

  // ---- every clean run -----------------------------------------------------

  ghost predicate CleanRun(c: Config, s: State, ls: seq<Label>, s': State)
    decreases |ls|
  {
    if ls == [] then s' == s
    else Enabled(s, ls[0]) && Clean(c, s, ls[0]) && CleanRun(c, Apply(c, s, ls[0]), ls[1..], s')
  }

  lemma CleanInit(c: Config)
    ensures Inv(c, Init()) && PoliteInv(Init()) && CleanInv(c, Init())
  {
    hide Inv;
    InitInv(c);
  }

  lemma {:induction false} CleanRunKeeps(c: Config, s: State, ls: seq<Label>, s': State)
    requires c.maxRetries <= MAX_SANE_ATTEMPT && Inv(c, s) && PoliteInv(s) && CleanInv(c, s) && CleanRun(c, s, ls, s')
    ensures Inv(c, s') && PoliteInv(s') && CleanInv(c, s')
    decreases |ls|
  {
    hide Inv, PoliteInv, CleanInv, Grows, Apply, Enabled, Polite;
    if ls != [] {
      StepKeeps(c, s, ls[0]);
      PoliteStep(c, s, ls[0]);
      CleanStep(c, s, ls[0]);
      CleanRunKeeps(c, Apply(c, s, ls[0]), ls[1..], s');
    }
  }

  ghost predicate CleanlyReachable(c: Config, s: State) {
    exists ls :: CleanRun(c, Init(), ls, s)
  }

  lemma CleanlyReachableInv(c: Config, s: State)
    requires c.maxRetries <= MAX_SANE_ATTEMPT && CleanlyReachable(c, s)
    ensures Inv(c, s) && PoliteInv(s) && CleanInv(c, s)
  {
    hide Inv, PoliteInv, CleanInv, CleanRun;
    var ls :| CleanRun(c, Init(), ls, s);
    CleanInit(c);
    CleanRunKeeps(c, Init(), ls, s);
  }

  // ---- results -------------------------------------------------------------

  lemma NewestCarries(c: Config, s: State, j: JobId)
    requires Inv(c, s) && CleanInv(c, s) && Live(s, j) && j in s.log.newest
    ensures Carried(s, j) && !HandedOver(s, s.log.newest[j])
    ensures forall p :: p in s.inFlight && s.inFlight[p].msg.jobId == j && p != s.log.newest[j] ==> HandedOver(s, p)
    ensures AttemptOf(s, s.log.newest[j]) == s.jobs[j].attemptCount + if Sending(s, j) then 1 else 0
  {
    hide CleanJob, Sending;
    InvCarriers(c, s);
    InvTables(c, s);
    hide Inv;
    assert Carried(s, j);
    LiveJob(c, s, j);
    NewestNotHandedOver(c, s, j);
  }

  // A published job that is not terminal has exactly one carrier: its newest
  // message. Whatever else is in flight for it only awaits its own ACK.
  lemma ExactlyOneCarrier(c: Config, s: State, j: JobId)
    requires c.maxRetries <= MAX_SANE_ATTEMPT && CleanlyReachable(c, s) && Live(s, j) && j in s.log.newest
    ensures exists q :: q in s.inFlight && s.inFlight[q].msg.jobId == j && !HandedOver(s, q)
              && (forall p :: p in s.inFlight && s.inFlight[p].msg.jobId == j && p != q ==> HandedOver(s, p))
              && AttemptOf(s, q) == s.jobs[j].attemptCount + if Sending(s, j) then 1 else 0
  {
    hide CleanlyReachable, Inv, PoliteInv, CleanInv, Sending;
    CleanlyReachableInv(c, s);
    NewestCarries(c, s, j);
  }

  lemma NewestNotHandedOver(c: Config, s: State, j: JobId)
    requires Inv(c, s) && Carried(s, j)
    ensures !HandedOver(s, s.log.newest[j])
  {
    hide Inv, RowOk, HandlerOk;
    var q := s.log.newest[j];
    if HandedOver(s, q) {
      OwnDelivery(c, s, s.inFlight[q].place.holder, q);
      HandlerFacts(c, s, s.inFlight[q].place.holder);
      assert false;
    }
  }

  // The pipeline is entered at most once per allowed attempt, the row is written a bounded
  // number of times, the stale-attempt branch is never taken, and no job is lost.
  lemma BoundedEntries(c: Config, s: State, j: JobId)
    requires c.maxRetries <= MAX_SANE_ATTEMPT && CleanlyReachable(c, s) && j in s.jobs
    ensures j in s.log.entries && s.log.entries[j] <= Limit(c) + 1
    ensures j in s.log.path && |s.log.path[j]| <= 5 * Limit(c) + 6
    ensures s.log.stale == {} && !Lost(s, j)
  {
    hide CleanlyReachable, PoliteInv, OneCarrier, CountOk;
    CleanlyReachableInv(c, s);
    InvTables(c, s);
    hide Inv;
    assert CleanJob(c, s, j);
  }

  // (retries left, stages left), smaller in lexicographic order.
  predicate Progressed(c: Config, r: Job, r': Job) {
    || Limit(c) - r'.attemptCount < Limit(c) - r.attemptCount
    || (r'.attemptCount == r.attemptCount && Rank(r'.status) < Rank(r.status))
  }

  lemma SwapProgress(c: Config, s: State, h: HandlerId, w: Swap)
    requires SwapFits(s, h, w) && SwapKinds(s, h, w)
    requires s.handlers[h].pc.RetrySent? ==> s.handlers[h].attempt == s.jobs[s.handlers[h].msg.jobId].attemptCount
    ensures Progressed(c, s.jobs[s.handlers[h].msg.jobId], w.row)
  {
  }

  // Every write of a job row makes progress, so a job's row is written finitely often.
  lemma EveryWriteProgresses(c: Config, s: State, l: Label, j: JobId)
    requires c.maxRetries <= MAX_SANE_ATTEMPT && CleanlyReachable(c, s) && Enabled(s, l) && j in s.jobs
    ensures j in Apply(c, s, l).jobs
    ensures Apply(c, s, l).jobs[j] == s.jobs[j] || Progressed(c, s.jobs[j], Apply(c, s, l).jobs[j])
  {
    hide CleanlyReachable, Inv, PoliteInv, CleanInv, Apply, Enabled, SwapOf, Working, StageOk, PcOk,
         OwnTags, SwapFits, SwapKinds, Progressed;
    CleanlyReachableInv(c, s);
    RowWriter(c, s, l, j);
    if Apply(c, s, l).jobs[j] != s.jobs[j] {
      SwapActor(c, s, l.h);
      SwapKind(c, s, l);
      SwapRow(c, s, l, j);
      SenderCount(c, s, l.h);
      SwapFrom(s, l.h, SwapOf(c, s, l));
      SwapLive(s, l.h, SwapOf(c, s, l));
      SwapProgress(c, s, l.h, SwapOf(c, s, l));
    }
  }

  lemma SwapLive(s: State, h: HandlerId, w: Swap)
    requires SwapFits(s, h, w)
    ensures Live(s, s.handlers[h].msg.jobId)
  {
  }

  lemma SenderCount(c: Config, s: State, h: HandlerId)
    requires CleanInv(c, s) && h in s.handlers
    ensures s.handlers[h].pc.RetrySent? && Live(s, s.handlers[h].msg.jobId) ==>
              s.handlers[h].attempt == s.jobs[s.handlers[h].msg.jobId].attemptCount
  {
    var j := s.handlers[h].msg.jobId;
    assert CleanJob(c, s, j);
    if s.handlers[h].pc.RetrySent? && Live(s, j) {
      assert Sends(s, h, j);
    }
  }
}
