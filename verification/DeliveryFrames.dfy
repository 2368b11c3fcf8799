// What each step of Delivery leaves alone.
module DeliveryFrames {
  import opened Options
  import opened JobStatus
  import opened Messages
  import opened QueryJobs
  import opened Delivery
  import Pm = Idempotency

  predicate SameJobs(s: State, s': State) {
    s'.jobs == s.jobs && s'.log.path == s.log.path && s'.log.entries == s.log.entries
  }

  predicate SameQueue(s: State, s': State) {
    s'.inFlight == s.inFlight && s'.nextSeq == s.nextSeq && s'.log.newest == s.log.newest
  }

  predicate SameCache(s: State, s': State) {
    s'.store == s.store && s'.log.evicted == s.log.evicted
  }

  // Handlers other than h are untouched and keep existing.
  ghost predicate OnlyHandler(s: State, s': State, h: HandlerId) {
    && s'.nextHandler == s.nextHandler
    && (forall g :: g != h ==> (g in s'.handlers <==> g in s.handlers))
    && (forall g :: g != h && g in s.handlers ==> s'.handlers[g] == s.handlers[g])
  }

  // A step of handler h: the same delivery, the same message identities.
  ghost predicate HandlerFrame(s: State, s': State, h: HandlerId) {
    && h in s.handlers && h in s'.handlers && OnlyHandler(s, s', h) && s'.ids == s.ids
    && s'.handlers[h].tag == s.handlers[h].tag && s'.handlers[h].msg == s.handlers[h].msg
    && (s.handlers[h].pc != Received ==>
          s'.handlers[h].token == s.handlers[h].token && s'.handlers[h].attempt == s.handlers[h].attempt
          && s'.handlers[h].pc != Received && s'.nextToken == s.nextToken)
  }

  lemma GoFrame(s: State, h: HandlerId, pc: Pc)
    requires h in s.handlers && pc != Received
    ensures var s' := Go(s, h, pc);
            SameJobs(s, s') && s'.pm == s.pm && HandlerFrame(s, s', h) && SameQueue(s, s') && SameCache(s, s')
  {
  }

  lemma PublishedFrame(s: State, h: HandlerId, m: Message, p: Publish, pc: Pc)
    requires h in s.handlers && pc != Received
    ensures var s' := Published(s, h, m, p, pc);
            SameJobs(s, s') && s'.pm == s.pm && HandlerFrame(s, s', h) && SameCache(s, s')
  {
  }

  lemma DeadLetterFrame(s: State, h: HandlerId, m: Message, p: Publish, pc: Pc)
    requires h in s.handlers && pc != Received
    ensures var s' := DeadLetter(s, h, m, p, pc);
            SameJobs(s, s') && s'.pm == s.pm && HandlerFrame(s, s', h) && SameQueue(s, s') && SameCache(s, s')
  {
  }

  lemma SwappedFrame(s: State, h: HandlerId, from: Status, after: JobTable, to: Status, pc: Pc)
    requires h in s.handlers && pc != Received
    ensures var s' := Swapped(s, h, from, after, to, pc);
            s'.pm == s.pm && HandlerFrame(s, s', h) && SameQueue(s, s') && SameCache(s, s')
  {
    hide Matches;
    var t := Moved(s, s.handlers[h].msg.jobId, after, to);
    assert t.pm == s.pm && t.handlers == s.handlers && t.ids == s.ids && SameCache(s, t)
           && t.nextHandler == s.nextHandler && SameQueue(s, t);
    hide Moved, Go;
    GoFrame(s, h, Aborted);
    GoFrame(t, h, pc);
  }

  lemma LoadFrame(s: State, h: HandlerId)
    requires h in s.handlers
    ensures var s' := AfterLoad(s, h);
            SameJobs(s, s') && s'.pm == s.pm && HandlerFrame(s, s', h) && SameQueue(s, s') && SameCache(s, s')
  {

  }

  lemma StoreFrame(c: Config, s: State, h: HandlerId, rows: nat, now: Time, p: Publish)
    requires h in s.handlers
    ensures var s' := AfterStore(c, s, h, rows, now, p);
            SameJobs(s, s') && s'.pm == s.pm && HandlerFrame(s, s', h) && SameQueue(s, s')
  {
  }

  lemma SendNextFrame(c: Config, s: State, h: HandlerId, p: Publish)
    requires h in s.handlers && s.handlers[h].pc.Rescheduling?
    ensures var s' := AfterSendNext(c, s, h, p);
            SameJobs(s, s') && s'.pm == s.pm && HandlerFrame(s, s', h) && SameCache(s, s')
  {
    hide WorkerMessage, NextAttempt, Published, DeadLetter;
    var x := s.handlers[h];
    var next := NextAttempt(x.attempt);
    var t := if p == NotEntered then s else s.(log := s.log.(sent := s.log.sent + {(x.msg.jobId, next)}));
    PublishedFrame(t, h, WorkerMessage(x.msg.jobId, x.msg.messageId, next), p, RetrySent(x.pc.from));
    DeadLetterFrame(s, h, WorkerMessage(x.msg.jobId, x.msg.messageId, x.attempt), p, DlqSent(x.pc.from));
  }

  lemma ClaimFrame(s: State, h: HandlerId, now: Time)
    requires At(s, h, Received)
    ensures var s' := AfterClaim(s, h, now);
            SameJobs(s, s') && HandlerFrame(s, s', h) && SameQueue(s, s') && SameCache(s, s')
  {
    hide Pm.Claimed, Pm.Verdict, ValidEnvelope, WrapUint8;
  }

  lemma RenewFrame(s: State, h: HandlerId, now: Time)
    requires h in s.handlers
    ensures var s' := AfterRenew(s, h, now);
            SameJobs(s, s') && HandlerFrame(s, s', h) && SameQueue(s, s') && SameCache(s, s')
  {
    hide Pm.Renewed, Pm.HoldsProcessing;
  }

  lemma MarkRetryFrame(s: State, h: HandlerId)
    requires h in s.handlers
    ensures var s' := AfterMarkRetry(s, h);
            SameJobs(s, s') && HandlerFrame(s, s', h) && SameQueue(s, s') && SameCache(s, s')
  {
    hide Pm.MarkedRetry, Pm.HoldsProcessing;
  }

  lemma MarkDoneFrame(s: State, h: HandlerId, now: Time)
    requires h in s.handlers
    ensures var s' := AfterMarkDone(s, h, now);
            SameJobs(s, s') && HandlerFrame(s, s', h) && SameQueue(s, s') && SameCache(s, s')
  {
    hide Pm.MarkedCompleted, Pm.Holds;
  }

  // Steps of one handler between its delivery and its end.
  predicate HandlerLabel(l: Label) {
    !l.Tick? && !l.Submit? && !l.MainPublish? && !l.Surface? && !l.RetryExpire? && !l.Deliver? && !l.Evict?
    && !l.Disconnect? && !l.GiveUp? && !l.Ack?
  }

  predicate PmLabel(l: Label) { l.Claim? || l.Renew? || l.MarkRetry? || l.MarkDone? }

  predicate SwapLabel(l: Label) {
    l.Enter? || l.Advance? || l.Refuse? || l.Succeed? || l.RecordRetry? || l.RecordDead?
  }

  predicate SendLabel(l: Label) { l.Defer? || l.SendNext? }

  // The compare-and-set a swap label performs: on success the row of its job
  // becomes `row` and the handler goes on at `pc`.
  datatype Swap = Swap(from: Status, row: Job, pc: Pc)

  function SwapOf(c: Config, s: State, l: Label): Swap
    requires Enabled(s, l) && SwapLabel(l) && s.handlers[l.h].msg.jobId in s.jobs
  {
    var x, r := s.handlers[l.h], s.jobs[s.handlers[l.h].msg.jobId];
    match l
    case Enter(_) => Swap(x.pc.from, r.(status := Generating), Stage(Generating))
    case Advance(_) => Swap(x.pc.at, r.(status := NextStage(x.pc.at)), Stage(NextStage(x.pc.at)))
    case Refuse(_, code, now) =>
      Swap(x.pc.at, r.(status := Failed, errorCode := Some(code), finishedAt := Some(now)), Completing(Finished))
    case Succeed(_) =>
      Swap(Executing, r.(status := Succeeded, rowCount := Some(x.pc.rows), finishedAt := Some(x.pc.now),
                         resultExpiresAt := Some(x.pc.now + c.resultTTL)), Completing(Finished))
    case RecordRetry(_, at) =>
      Swap(x.pc.from, r.(status := Retrying, attemptCount := NextAttempt(x.attempt), nextRetryAt := Some(at)), MarkingRetry)
    case RecordDead(_, now) =>
      Swap(x.pc.from, r.(status := Failed, errorCode := Some(MaxRetriesExceeded), finishedAt := Some(now)),
           Completing(DeadLettered))
  }

  // Every swap label is Swapped with its Swap, or finds no row to update.
  lemma ApplySwap(c: Config, s: State, l: Label)
    requires Enabled(s, l) && SwapLabel(l)
    ensures var j := s.handlers[l.h].msg.jobId;
            if j in s.jobs
            then var w := SwapOf(c, s, l);
                 Apply(c, s, l) == Swapped(s, l.h, w.from, if s.jobs[j].status == w.from then s.jobs[j := w.row] else s.jobs,
                                           w.row.status, w.pc)
            else Apply(c, s, l) == Go(s, l.h, Aborted)
  {
    hide Go, Moved, NextAttempt;
  }

  lemma SwapShape(c: Config, s: State, l: Label)
    requires Enabled(s, l) && SwapLabel(l)
    ensures l.h in s.handlers && Working(s.handlers[l.h].pc) && s.handlers[l.h].pc != Received
    ensures s.handlers[l.h].msg.jobId in s.jobs ==> SwapOf(c, s, l).pc != Received
  {
  }

  lemma SwapFrame(c: Config, s: State, l: Label)
    requires Enabled(s, l) && SwapLabel(l)
    ensures var s' := Apply(c, s, l);
            s'.pm == s.pm && HandlerFrame(s, s', l.h) && SameQueue(s, s') && SameCache(s, s')
  {
    hide SameQueue, SameCache, HandlerFrame, Swapped, Apply, SwapOf, Go, Enabled, Working;
    ApplySwap(c, s, l);
    SwapShape(c, s, l);
    var j := s.handlers[l.h].msg.jobId;
    if j in s.jobs {
      var w := SwapOf(c, s, l);
      SwappedFrame(s, l.h, w.from, if s.jobs[j].status == w.from then s.jobs[j := w.row] else s.jobs, w.row.status, w.pc);
    } else {
      GoFrame(s, l.h, Aborted);
    }
  }

  // The remaining handler steps.
  lemma OwnFrame(c: Config, s: State, l: Label)
    requires Enabled(s, l) && HandlerLabel(l) && !SwapLabel(l)
    ensures var s' := Apply(c, s, l);
            && (!PmLabel(l) ==> s'.pm == s.pm) && SameJobs(s, s') && HandlerFrame(s, s', l.h)
            && (!SendLabel(l) ==> SameQueue(s, s'))
            && (!l.StoreResult? ==> SameCache(s, s'))
  {
    hide SameJobs, SameQueue, SameCache, HandlerFrame, AfterClaim, AfterRenew, AfterLoad, AfterStore, AfterSendNext,
         AfterMarkRetry, AfterMarkDone, Published, DeadLetter, Go, LoadPc, WorkerMessage;
    match l {
      case Claim(h, now) => ClaimFrame(s, h, now);
      case Renew(h, now) => RenewFrame(s, h, now);
      case MarkRetry(h) => MarkRetryFrame(s, h);
      case MarkDone(h, now) => MarkDoneFrame(s, h, now);
      case Defer(h, p) =>
        var m := s.handlers[h].msg;
        PublishedFrame(s, h, WorkerMessage(m.jobId, m.messageId, s.handlers[h].attempt), p, Acking(true));
      case Reject(h, p) =>
        var m := s.handlers[h].msg;
        DeadLetterFrame(s, h, WorkerMessage(m.jobId, m.messageId, s.handlers[h].attempt), p, Acking(false));
      case SendOrphan(h, p) =>
        var m := s.handlers[h].msg;
        DeadLetterFrame(s, h, WorkerMessage(m.jobId, m.messageId, s.handlers[h].attempt), p, Completing(JobMissing));
      case Load(h) => LoadFrame(s, h);
      case Hiccup(h) => GoFrame(s, h, Rescheduling(s.handlers[h].pc.at));
      case StoreResult(h, rows, now, p) => StoreFrame(c, s, h, rows, now, p);
      case SendNext(h, p) => SendNextFrame(c, s, h, p);
    }
  }

  lemma StepFrame(c: Config, s: State, l: Label)
    requires Enabled(s, l)
    ensures var s' := Apply(c, s, l);
            && (!PmLabel(l) ==> s'.pm == s.pm)
            && (!SwapLabel(l) && !l.Submit? ==> SameJobs(s, s'))
            && (!HandlerLabel(l) && !l.Submit? ==> s'.ids == s.ids)
            && (HandlerLabel(l) && !SendLabel(l) ==> SameQueue(s, s'))
            && (!l.StoreResult? && !l.Evict? ==> SameCache(s, s'))
    ensures var s' := Apply(c, s, l);
            HandlerLabel(l) ==> HandlerFrame(s, s', l.h)
  {
    hide SameJobs, SameQueue, SameCache, HandlerFrame, Apply, Enabled;
    if SwapLabel(l) {
      SwapFrame(c, s, l);
    } else if HandlerLabel(l) {
      OwnFrame(c, s, l);
    } else if l.Submit? {
      SubmitFrame(c, s, l);
    } else {
      OtherFrame(c, s, l);
    }
  }

  lemma SubmitFrame(c: Config, s: State, l: Label)
    requires Enabled(s, l) && l.Submit?
    ensures var s' := Apply(c, s, l); s'.pm == s.pm && SameCache(s, s') && s'.handlers == s.handlers
  {
  }

  lemma OtherFrame(c: Config, s: State, l: Label)
    requires Enabled(s, l) && !HandlerLabel(l) && !l.Submit?
    ensures var s' := Apply(c, s, l);
            s'.pm == s.pm && SameJobs(s, s') && s'.ids == s.ids && (!l.Evict? ==> SameCache(s, s'))
  {
    hide Returned, Acked, OutboxMessage, AfterSurface, AfterDeliver;
    if l.Surface? {
      SurfaceFrame(s, l.w);
    } else if l.Deliver? {
      DeliverFrame(s, l.q);
    }
  }

  lemma SurfaceFrame(s: State, w: Late)
    ensures var s' := AfterSurface(s, w);
            && s'.pm == s.pm && SameJobs(s, s') && s'.ids == s.ids && SameCache(s, s')
            && s'.handlers == s.handlers && s'.nextHandler == s.nextHandler
  {
  }

  lemma DeliverFrame(s: State, q: Seq)
    requires q in s.inFlight
    ensures var s' := AfterDeliver(s, q);
            && s'.pm == s.pm && SameJobs(s, s') && s'.ids == s.ids && SameCache(s, s')
  {
  }

  // The pc a handler step starts from.
  lemma StartsWorking(s: State, l: Label)
    requires Enabled(s, l) && HandlerLabel(l)
    ensures Working(s.handlers[l.h].pc) || l.Claim? || l.Defer? || l.Reject?
  {
  }

  lemma IdleEnds(s: State, h: HandlerId, m: Message, p: Publish, handedOff: bool)
    requires h in s.handlers
    ensures !Working(Published(s, h, m, p, Acking(handedOff)).handlers[h].pc)
    ensures !Working(DeadLetter(s, h, m, p, Acking(handedOff)).handlers[h].pc)
  {
  }

  // Only a claim makes a handler start working.
  lemma WorkStartsAtClaim(c: Config, s: State, l: Label, g: HandlerId)
    requires Enabled(s, l) && g in Apply(c, s, l).handlers && Working(Apply(c, s, l).handlers[g].pc)
    ensures (g in s.handlers && Working(s.handlers[g].pc)
             && s.handlers[g].msg == Apply(c, s, l).handlers[g].msg && s.handlers[g].tag == Apply(c, s, l).handlers[g].tag)
         || (l.Claim? && l.h == g)
  {
    if HandlerLabel(l) {
      StartsWorking(s, l);
      hide Enabled, Working, Apply, SameJobs, SameQueue;
      StepFrame(c, s, l);
      if l.Defer? || l.Reject? {
        IdleStep(c, s, l);
      }
    } else {
      hide Enabled, Apply;
      OutsideHandlers(c, s, l, g);
    }
  }

  lemma IdleStep(c: Config, s: State, l: Label)
    requires Enabled(s, l) && (l.Defer? || l.Reject?)
    ensures l.h in Apply(c, s, l).handlers && !Working(Apply(c, s, l).handlers[l.h].pc)
  {
    hide Published, DeadLetter, Working, WorkerMessage;
    var m := s.handlers[l.h].msg;
    IdleEnds(s, l.h, WorkerMessage(m.jobId, m.messageId, s.handlers[l.h].attempt), l.p, l.Defer?);
    PublishedFrame(s, l.h, WorkerMessage(m.jobId, m.messageId, s.handlers[l.h].attempt), l.p, Acking(true));
    DeadLetterFrame(s, l.h, WorkerMessage(m.jobId, m.messageId, s.handlers[l.h].attempt), l.p, Acking(false));
  }

  // Steps outside the handlers create at most the handler nextHandler.
  lemma OutsideHandlers(c: Config, s: State, l: Label, g: HandlerId)
    requires Enabled(s, l) && !HandlerLabel(l) && g in Apply(c, s, l).handlers
    ensures (g in s.handlers && s.handlers[g] == Apply(c, s, l).handlers[g])
         || (l.Deliver? && g == s.nextHandler && Apply(c, s, l).handlers[g].pc == Received)
  {
    hide Returned, Acked, OutboxMessage, Transitioned, AfterSurface;
    if l.Surface? {
      SurfaceFrame(s, l.w);
    }
  }

  // Only a working handler of the same job changes a job row.
  lemma RowWriter(c: Config, s: State, l: Label, j: JobId)
    requires Enabled(s, l) && j in s.jobs
    ensures j in Apply(c, s, l).jobs
    ensures Apply(c, s, l).jobs[j] == s.jobs[j]
         || (SwapLabel(l) && l.h in s.handlers && s.handlers[l.h].msg.jobId == j && Working(s.handlers[l.h].pc))
  {
    if SwapLabel(l) {
      SwapRow(c, s, l, j);
    } else if !l.Submit? {
      hide Enabled, Apply, SameQueue;
      StepFrame(c, s, l);
    }
  }

  lemma SwappedJobs(s: State, h: HandlerId, from: Status, after: JobTable, to: Status, pc: Pc)
    requires h in s.handlers
    ensures Swapped(s, h, from, after, to, pc).jobs ==
              if Matches(s.jobs, s.handlers[h].msg.jobId, from) then after else s.jobs
  {
  }

  lemma SwapRow(c: Config, s: State, l: Label, j: JobId)
    requires Enabled(s, l) && SwapLabel(l) && j in s.jobs
    ensures j in Apply(c, s, l).jobs && Working(s.handlers[l.h].pc)
    ensures Apply(c, s, l).jobs[j] ==
              if s.handlers[l.h].msg.jobId == j && s.jobs[j].status == SwapOf(c, s, l).from
              then SwapOf(c, s, l).row else s.jobs[j]
  {
    hide Apply, SwapOf, Swapped, Working, Enabled;
    ApplySwap(c, s, l);
    SwapShape(c, s, l);
    var k := s.handlers[l.h].msg.jobId;
    if k in s.jobs {
      var w := SwapOf(c, s, l);
      SwappedJobs(s, l.h, w.from, if s.jobs[k].status == w.from then s.jobs[k := w.row] else s.jobs, w.row.status, w.pc);
    }
  }

  // ---- what is written to the history --------------------------------------

  predicate SameNotes(s: State, s': State) {
    s'.log.sent == s.log.sent && s'.log.stale == s.log.stale && s.dlq <= s'.dlq
  }

  lemma StepNotes(s: State, h: HandlerId, pc: Pc, j: JobId, after: JobTable, to: Status)
    requires h in s.handlers
    ensures SameNotes(s, Go(s, h, pc)) && SameNotes(s, Moved(s, j, after, to))
    ensures Moved(s, j, after, to).handlers == s.handlers
  {
  }

  lemma SwappedNotes(s: State, h: HandlerId, from: Status, after: JobTable, to: Status, pc: Pc)
    requires h in s.handlers
    ensures SameNotes(s, Swapped(s, h, from, after, to, pc))
  {
    hide Matches, Moved, Go;
    var j := s.handlers[h].msg.jobId;
    StepNotes(s, h, Aborted, j, after, to);
    StepNotes(Moved(s, j, after, to), h, pc, j, after, to);
  }

  lemma SwapNotes(c: Config, s: State, l: Label)
    requires Enabled(s, l) && SwapLabel(l)
    ensures SameNotes(s, Apply(c, s, l))
  {
    hide Swapped, Apply, SwapOf, Enabled, SameNotes, Working;
    ApplySwap(c, s, l);
    SwapShape(c, s, l);
    var j := s.handlers[l.h].msg.jobId;
    if j in s.jobs {
      var w := SwapOf(c, s, l);
      SwappedNotes(s, l.h, w.from, if s.jobs[j].status == w.from then s.jobs[j := w.row] else s.jobs, w.row.status, w.pc);
    } else {
      StepNotes(s, l.h, Aborted, j, s.jobs, Failed);
    }
  }

  lemma PmNotes(c: Config, s: State, l: Label)
    requires Enabled(s, l) && PmLabel(l)
    ensures SameNotes(s, Apply(c, s, l))
  {
    hide AfterVerdict, Pm.Verdict, Pm.Claimed, ValidEnvelope, ExtractAttempt, WrapUint8,
         Pm.Renewed, Pm.MarkedRetry, Pm.MarkedCompleted, Pm.Holds, Pm.HoldsProcessing;
  }

  lemma CopyNotes(c: Config, s: State, l: Label)
    requires Enabled(s, l) && (l.Defer? || l.Reject? || l.SendOrphan?)
    ensures SameNotes(s, Apply(c, s, l))
  {
    hide SameNotes, WorkerMessage, Published, DeadLetter;
    var m := WorkerMessage(s.handlers[l.h].msg.jobId, s.handlers[l.h].msg.messageId, s.handlers[l.h].attempt);
    PublishNotes(s, l.h, m, l.p, Acking(true));
    PublishNotes(s, l.h, m, l.p, Acking(false));
    PublishNotes(s, l.h, m, l.p, Completing(JobMissing));
  }

  lemma EnqueueNotes(s: State, m: Message, place: Place)
    ensures SameNotes(s, Enqueue(s, m, place))
  {
  }

  lemma SurfaceNotes(s: State, w: Late)
    ensures SameNotes(s, AfterSurface(s, w))
  {
  }

  lemma RestNotes(c: Config, s: State, l: Label)
    requires Enabled(s, l) && !SwapLabel(l) && !PmLabel(l) && !l.SendNext? && !l.Load?
    requires !l.Defer? && !l.Reject? && !l.SendOrphan?
    ensures SameNotes(s, Apply(c, s, l))
  {
    hide OutboxMessage, Returned, Acked, Transitioned, AfterSurface, Enqueue;
    if l.Surface? {
      SurfaceNotes(s, l.w);
    } else if l.MainPublish? {
      EnqueueNotes(s, OutboxMessage(l.j, s.ids[l.j]), Main);
    }
  }

  lemma OtherNotes(c: Config, s: State, l: Label)
    requires Enabled(s, l) && !SwapLabel(l) && !PmLabel(l) && !l.SendNext? && !l.Load?
    ensures SameNotes(s, Apply(c, s, l))
  {
    hide Enabled, Apply, SameNotes;
    if l.Defer? || l.Reject? || l.SendOrphan? {
      CopyNotes(c, s, l);
    } else {
      RestNotes(c, s, l);
    }
  }

  lemma PublishNotes(s: State, h: HandlerId, m: Message, p: Publish, pc: Pc)
    requires h in s.handlers
    ensures SameNotes(s, Published(s, h, m, p, pc)) && SameNotes(s, DeadLetter(s, h, m, p, pc))
  {
  }

  lemma SendNextStale(c: Config, s: State, h: HandlerId, p: Publish)
    requires h in s.handlers && s.handlers[h].pc.Rescheduling?
    ensures AfterSendNext(c, s, h, p).log.stale == s.log.stale && s.dlq <= AfterSendNext(c, s, h, p).dlq
  {
    hide WorkerMessage, NextAttempt, Published, DeadLetter;
    var x := s.handlers[h];
    var j, next := x.msg.jobId, NextAttempt(x.attempt);
    var t := if p == NotEntered then s else s.(log := s.log.(sent := s.log.sent + {(j, next)}));
    PublishNotes(t, h, WorkerMessage(j, x.msg.messageId, next), p, RetrySent(x.pc.from));
    PublishNotes(s, h, WorkerMessage(j, x.msg.messageId, x.attempt), p, DlqSent(x.pc.from));
  }

  // Only a load can find an attempt stale.
  lemma StaleFrame(c: Config, s: State, l: Label)
    requires Enabled(s, l) && !l.Load?
    ensures Apply(c, s, l).log.stale == s.log.stale
  {
    hide AfterSendNext;
    if l.SendNext? {
      SendNextStale(c, s, l.h, l.p);
    } else {
      hide Apply, Enabled;
      if SwapLabel(l) {
        SwapNotes(c, s, l);
      } else if PmLabel(l) {
        PmNotes(c, s, l);
      } else {
        OtherNotes(c, s, l);
      }
    }
  }

  // Dead letters stay.
  lemma DlqGrows(c: Config, s: State, l: Label)
    requires Enabled(s, l)
    ensures s.dlq <= Apply(c, s, l).dlq
  {
    hide AfterSendNext, AfterLoad;
    if l.SendNext? {
      SendNextStale(c, s, l.h, l.p);
    } else if l.Load? {
      LoadDlq(s, l.h);
    } else {
      hide Apply, Enabled;
      if SwapLabel(l) {
        SwapNotes(c, s, l);
      } else if PmLabel(l) {
        PmNotes(c, s, l);
      } else {
        OtherNotes(c, s, l);
      }
    }
  }

  lemma LoadDlq(s: State, h: HandlerId)
    requires h in s.handlers
    ensures AfterLoad(s, h).dlq == s.dlq
  {
  }
}
