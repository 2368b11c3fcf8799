// Runs in which no lease is taken over while its holder still works: the job is
// then processed by at most one handler at a time, no compare-and-set fails, and
// the cached result is the recorded one.
module PoliteRuns {
  import opened Options
  import opened JobStatus
  import opened Messages
  import opened QueryJobs
  import opened Delivery
  import opened DeliveryFrames
  import opened DeliverySafety
  import opened DeliveryTheorems
  import Pm = Idempotency

  predicate Works(s: State, h: HandlerId) {
    h in s.handlers && Working(s.handlers[h].pc)
  }

  predicate HoldsRow(s: State, x: Handler) {
    Pm.HoldsProcessing(s.pm, x.msg.messageId, x.token)
  }

  // No step takes a lease over from a handler that is still working.
  ghost predicate Polite(s: State, l: Label) {
    l.Claim? && l.h in s.handlers &&
      Pm.Verdict(s.pm, s.handlers[l.h].msg.messageId, s.handlers[l.h].msg.kind, s.handlers[l.h].msg.jobId, s.clock)
        == Pm.TakenOver
    ==> forall g :: Works(s, g) && s.handlers[g].msg.messageId == s.handlers[l.h].msg.messageId
          ==> !HoldsRow(s, s.handlers[g])
  }

  // The cached row count is this one, unless the entry was evicted.
  predicate Agrees(s: State, j: JobId, rows: nat) {
    j in s.log.evicted || (j in s.store && s.store[j].rows == rows)
  }

  // The job row is where the handler believes it is.
  predicate StageOk(s: State, x: Handler) {
    var j := x.msg.jobId;
    j in s.jobs &&
    match x.pc
    case Entering(from) => s.jobs[j].status == from
    case Stage(at) => s.jobs[j].status == at
    case Stored(rows, _) => s.jobs[j].status == Executing && Agrees(s, j, rows)
    case Rescheduling(from) => s.jobs[j].status == from
    case RetrySent(from) => s.jobs[j].status == from
    case DlqSent(from) => s.jobs[j].status == from
    case MarkingRetry => s.jobs[j].status == Retrying
    case _ => true
  }

  ghost predicate PoliteInv(s: State) {
    && (forall h :: Works(s, h) ==> HoldsRow(s, s.handlers[h]) && StageOk(s, s.handlers[h]))
    && (forall j :: j in s.jobs && s.jobs[j].status == Succeeded && s.jobs[j].rowCount.Some? ==>
          Agrees(s, j, s.jobs[j].rowCount.value))
  }

  // Two working handlers of one job are one handler.
  lemma Exclusive(c: Config, s: State, g: HandlerId, h: HandlerId)
    requires Inv(c, s) && PoliteInv(s) && Works(s, g) && Works(s, h)
    requires s.handlers[g].msg.jobId == s.handlers[h].msg.jobId
    ensures g == h
  {
    hide Inv, Ids, PmRows, Agrees, StageOk;
    InvTables(c, s);
    HandlerMessage(c, s, g);
    HandlerMessage(c, s, h);
  }

  // ---- the acting handler --------------------------------------------------

  // What the row must look like for a handler to go on at w.pc.
  predicate Lands(w: Swap) {
    match w.pc
    case Stage(at) => at == w.row.status
    case MarkingRetry => w.row.status == Retrying
    case Completing(_) => true
    case _ => false
  }

  lemma SwapStage(s: State, h: HandlerId, w: Swap)
    requires Works(s, h) && Lands(w)
    requires s.handlers[h].msg.jobId in s.jobs && s.jobs[s.handlers[h].msg.jobId].status == w.from
    ensures var s' := Swapped(s, h, w.from, s.jobs[s.handlers[h].msg.jobId := w.row], w.row.status, w.pc);
            h in s'.handlers && StageOk(s', s'.handlers[h]) && s'.handlers[h].pc == w.pc
  {
  }

  lemma SwapLands(c: Config, s: State, l: Label)
    requires Enabled(s, l) && SwapLabel(l) && StageOk(s, s.handlers[l.h])
    ensures Works(s, l.h) && s.handlers[l.h].msg.jobId in s.jobs
    ensures Lands(SwapOf(c, s, l)) && s.jobs[s.handlers[l.h].msg.jobId].status == SwapOf(c, s, l).from
    ensures SwapOf(c, s, l).row.status == Succeeded ==> l.Succeed? && s.handlers[l.h].pc.Stored?
    ensures l.Succeed? ==> SwapOf(c, s, l).row.rowCount == Some(s.handlers[l.h].pc.rows)
  {
    hide Agrees;
  }

  // A handler's own compare-and-set always finds its row.
  lemma NoSwapConflict(c: Config, s: State, l: Label)
    requires Enabled(s, l) && SwapLabel(l) && StageOk(s, s.handlers[l.h])
    ensures l.h in Apply(c, s, l).handlers && Apply(c, s, l).handlers[l.h].pc != Aborted
    ensures StageOk(Apply(c, s, l), Apply(c, s, l).handlers[l.h])
  {
    ApplySwap(c, s, l);
    SwapLands(c, s, l);
    hide Enabled, Apply, SwapOf, StageOk, Swapped;
    SwapStage(s, l.h, SwapOf(c, s, l));
  }

  lemma LoadStage(s: State, h: HandlerId)
    requires h in s.handlers && s.handlers[h].msg.jobId in s.jobs
    ensures h in AfterLoad(s, h).handlers && StageOk(AfterLoad(s, h), AfterLoad(s, h).handlers[h])
  {
  }

  lemma StoreStage(c: Config, s: State, h: HandlerId, rows: nat, now: Time, p: Publish)
    requires h in s.handlers && s.handlers[h].msg.jobId in s.jobs && s.jobs[s.handlers[h].msg.jobId].status == Executing
    ensures var s' := AfterStore(c, s, h, rows, now, p); h in s'.handlers && StageOk(s', s'.handlers[h])
  {
  }

  lemma PublishStage(s: State, h: HandlerId, m: Message, p: Publish, pc: Pc)
    requires h in s.handlers && StageOk(s, s.handlers[h].(pc := pc)) && !pc.Stored?
    ensures var s' := Published(s, h, m, p, pc); h in s'.handlers && StageOk(s', s'.handlers[h])
    ensures var s' := DeadLetter(s, h, m, p, pc); h in s'.handlers && StageOk(s', s'.handlers[h])
  {
  }

  lemma StageGoesOn(s: State, t: State, x: Handler)
    requires x.pc.Rescheduling? && StageOk(s, x) && t.jobs == s.jobs
    ensures StageOk(t, x.(pc := RetrySent(x.pc.from))) && StageOk(s, x.(pc := DlqSent(x.pc.from)))
  {
  }

  lemma SendStage(c: Config, s: State, h: HandlerId, p: Publish)
    requires Works(s, h) && s.handlers[h].pc.Rescheduling? && StageOk(s, s.handlers[h])
    ensures var s' := AfterSendNext(c, s, h, p); h in s'.handlers && StageOk(s', s'.handlers[h])
  {
    var x := s.handlers[h];
    var j, next := x.msg.jobId, NextAttempt(x.attempt);
    var t := if p == NotEntered then s else s.(log := s.log.(sent := s.log.sent + {(j, next)}));
    hide WorkerMessage, NextAttempt, Published, DeadLetter, StageOk, Works;
    StageGoesOn(s, t, x);
    PublishStage(t, h, WorkerMessage(j, x.msg.messageId, next), p, RetrySent(x.pc.from));
    PublishStage(s, h, WorkerMessage(j, x.msg.messageId, x.attempt), p, DlqSent(x.pc.from));
  }

  lemma ClaimStage(s: State, h: HandlerId, now: Time)
    requires h in s.handlers && s.handlers[h].msg.jobId in s.jobs
    ensures var s' := AfterClaim(s, h, now); h in s'.handlers && StageOk(s', s'.handlers[h])
  {
    hide Pm.Claimed, Pm.Verdict, ValidEnvelope, WrapUint8, Agrees;
  }

  lemma LeaseStage(s: State, h: HandlerId, now: Time)
    requires Works(s, h) && StageOk(s, s.handlers[h])
    ensures h in AfterRenew(s, h, now).handlers && StageOk(AfterRenew(s, h, now), AfterRenew(s, h, now).handlers[h])
    ensures h in AfterMarkRetry(s, h).handlers && StageOk(AfterMarkRetry(s, h), AfterMarkRetry(s, h).handlers[h])
    ensures h in AfterMarkDone(s, h, now).handlers && StageOk(AfterMarkDone(s, h, now), AfterMarkDone(s, h, now).handlers[h])
  {
    hide Pm.Renewed, Pm.MarkedRetry, Pm.MarkedCompleted, Pm.Holds, Pm.HoldsProcessing;
  }

  lemma HiccupStage(s: State, h: HandlerId)
    requires h in s.handlers && s.handlers[h].pc.Stage? && StageOk(s, s.handlers[h])
    ensures var s' := Go(s, h, Rescheduling(s.handlers[h].pc.at)); h in s'.handlers && StageOk(s', s'.handlers[h])
  {
  }

  // Whatever the handler does, it again finds the row where it believes it is.
  lemma ActorStage(c: Config, s: State, l: Label)
    requires Enabled(s, l) && HandlerLabel(l) && !l.Reject? && !l.SendOrphan?
    requires s.handlers[l.h].msg.jobId in s.jobs && (Works(s, l.h) ==> StageOk(s, s.handlers[l.h]))
    ensures l.h in Apply(c, s, l).handlers
    ensures Works(Apply(c, s, l), l.h) ==> StageOk(Apply(c, s, l), Apply(c, s, l).handlers[l.h])
  {
    hide AfterClaim, AfterRenew, AfterLoad, AfterStore, AfterSendNext, AfterMarkRetry, AfterMarkDone,
         Swapped, Published, DeadLetter, Go, WorkerMessage, Agrees;
    if SwapLabel(l) {
      hide Apply;
      NoSwapConflict(c, s, l);
    } else {
      match l {
        case Claim(h, now) => ClaimStage(s, h, now);
        case Renew(h, now) => LeaseStage(s, h, now);
        case MarkRetry(h) => LeaseStage(s, h, 0);
        case MarkDone(h, now) => LeaseStage(s, h, now);
        case Defer(h, p) =>
          var m := WorkerMessage(s.handlers[h].msg.jobId, s.handlers[h].msg.messageId, s.handlers[h].attempt);
          PublishStage(s, h, m, p, Acking(true));
        case Load(h) => LoadStage(s, h);
        case Hiccup(h) => HiccupStage(s, h);
        case StoreResult(h, rows, now, p) => StoreStage(c, s, h, rows, now, p);
        case SendNext(h, p) => SendStage(c, s, h, p);
      }
    }
  }

  lemma LeaseRow(s: State, h: HandlerId, now: Time)
    requires Works(s, h) && HoldsRow(s, s.handlers[h])
    ensures h in AfterRenew(s, h, now).handlers && HoldsRow(AfterRenew(s, h, now), AfterRenew(s, h, now).handlers[h])
    ensures h in AfterMarkRetry(s, h).handlers && !Works(AfterMarkRetry(s, h), h)
    ensures h in AfterMarkDone(s, h, now).handlers && !Works(AfterMarkDone(s, h, now), h)
  {
  }

  lemma ClaimedRow(s: State, h: HandlerId, now: Time)
    requires At(s, h, Received) && ValidEnvelope(s.handlers[h].msg)
    ensures h in AfterClaim(s, h, now).handlers
    ensures Works(AfterClaim(s, h, now), h) ==> HoldsRow(AfterClaim(s, h, now), AfterClaim(s, h, now).handlers[h])
  {
    ClaimLease(s, h, now);
    hide Pm.Claimed, Pm.Verdict, ValidEnvelope, WrapUint8;
  }

  // A handler that works after its step holds its row.
  lemma ActorRow(c: Config, s: State, l: Label)
    requires Enabled(s, l) && HandlerLabel(l) && ValidEnvelope(s.handlers[l.h].msg)
    requires Works(s, l.h) ==> HoldsRow(s, s.handlers[l.h])
    ensures l.h in Apply(c, s, l).handlers
    ensures Works(Apply(c, s, l), l.h) ==> HoldsRow(Apply(c, s, l), Apply(c, s, l).handlers[l.h])
  {
    hide SameJobs, SameQueue;
    if PmLabel(l) {
      hide AfterClaim, AfterRenew, AfterMarkRetry, AfterMarkDone;
      match l {
        case Claim(h, now) => ClaimedRow(s, h, now);
        case Renew(h, now) => LeaseRow(s, h, now);
        case MarkRetry(h) => LeaseRow(s, h, 0);
        case MarkDone(h, now) => LeaseRow(s, h, now);
      }
    } else {
      StartsWorking(s, l);
      hide Apply, Enabled;
      StepFrame(c, s, l);
      if Works(Apply(c, s, l), l.h) {
        WorkStartsAtClaim(c, s, l, l.h);
      }
    }
  }

  // ---- the other handlers --------------------------------------------------

  lemma AgreesKept(c: Config, s: State, l: Label, j: JobId, rows: nat)
    requires Enabled(s, l) && Agrees(s, j, rows)
    requires l.StoreResult? ==> s.handlers[l.h].msg.jobId != j
    ensures Agrees(Apply(c, s, l), j, rows)
  {
    if l.StoreResult? {
      hide AfterStore, Agrees;
      StoreAgrees(c, s, l.h, l.rows, l.now, l.p, j, rows);
    } else if l.Evict? {
      EvictAgrees(s, l.j, j, rows);
    } else {
      hide Enabled, Apply, SameJobs, SameQueue;
      StepFrame(c, s, l);
    }
  }

  lemma StoreAgrees(c: Config, s: State, h: HandlerId, stored: nat, now: Time, p: Publish, j: JobId, rows: nat)
    requires h in s.handlers && s.handlers[h].msg.jobId != j && Agrees(s, j, rows)
    ensures Agrees(AfterStore(c, s, h, stored, now, p), j, rows)
  {
  }

  lemma EvictAgrees(s: State, k: JobId, j: JobId, rows: nat)
    requires Agrees(s, j, rows)
    ensures Agrees(s.(store := s.store - {k}, log := s.log.(evicted := s.log.evicted + {k})), j, rows)
  {
  }

  lemma SameBystander(c: Config, s: State, l: Label, g: HandlerId)
    requires Enabled(s, l) && Works(Apply(c, s, l), g) && !(HandlerLabel(l) && l.h == g)
    ensures Works(s, g) && Apply(c, s, l).handlers[g] == s.handlers[g]
  {
    hide Enabled, Apply, SameJobs, SameQueue;
    if HandlerLabel(l) {
      StepFrame(c, s, l);
    } else {
      OutsideHandlers(c, s, l, g);
    }
  }

  lemma ClaimSpares(s: State, h: HandlerId, now: Time, m: MessageId, token: Pm.Token)
    requires At(s, h, Received) && Pm.HoldsProcessing(s.pm, m, token)
    requires var x := s.handlers[h].msg;
             x.messageId == m ==> Pm.Verdict(s.pm, m, x.kind, x.jobId, s.clock) != Pm.TakenOver
    ensures Pm.HoldsProcessing(AfterClaim(s, h, now).pm, m, token)
  {
    hide ValidEnvelope, WrapUint8, ExtractAttempt;
  }

  lemma RowSpared(c: Config, s: State, l: Label, g: HandlerId)
    requires Inv(c, s) && PoliteInv(s) && Enabled(s, l) && Polite(s, l) && Works(s, g) && PmLabel(l) && l.h != g
    ensures HoldsRow(Apply(c, s, l), s.handlers[g])
  {
    hide Inv, StageOk, AfterClaim, AfterRenew, AfterMarkDone, AfterMarkRetry;
    if l.Claim? {
      ClaimSpares(s, l.h, l.now, s.handlers[g].msg.messageId, s.handlers[g].token);
    } else {
      assert Works(s, l.h);
      HandlerMessage(c, s, g);
      HandlerMessage(c, s, l.h);
      hide Enabled, Apply, ValidEnvelope;
      if s.handlers[g].msg.messageId == s.handlers[l.h].msg.messageId {
        SameMessageSameJob(c, s, g, l.h);
        Exclusive(c, s, g, l.h);
      }
      PmEffect(c, s, l);
    }
  }

  lemma SameMessageSameJob(c: Config, s: State, g: HandlerId, h: HandlerId)
    requires Inv(c, s) && g in s.handlers && h in s.handlers
    ensures s.handlers[g].msg.messageId == s.handlers[h].msg.messageId
        <==> s.handlers[g].msg.jobId == s.handlers[h].msg.jobId
  {
    hide Inv, PmRows, Tokens;
    InvTables(c, s);
    HandlerMessage(c, s, g);
    HandlerMessage(c, s, h);
  }

  lemma BystanderRow(c: Config, s: State, l: Label, g: HandlerId)
    requires Inv(c, s) && PoliteInv(s) && Enabled(s, l) && Polite(s, l)
    requires Works(Apply(c, s, l), g) && !(HandlerLabel(l) && l.h == g)
    ensures HoldsRow(Apply(c, s, l), Apply(c, s, l).handlers[g])
  {
    hide Enabled, Apply, SameJobs, SameQueue, SameCache, Inv, StageOk, Polite, Pm.HoldsProcessing, Working;
    SameBystander(c, s, l, g);
    if PmLabel(l) {
      RowSpared(c, s, l, g);
    } else {
      StepFrame(c, s, l);
    }
  }

  // The row of a job that a handler works on is written by nobody else.
  lemma OwnsRow(c: Config, s: State, l: Label, g: HandlerId)
    requires Inv(c, s) && PoliteInv(s) && Enabled(s, l) && Works(s, g) && !(HandlerLabel(l) && l.h == g)
    ensures l.StoreResult? ==> s.handlers[l.h].msg.jobId != s.handlers[g].msg.jobId
    ensures var j := s.handlers[g].msg.jobId; j in s.jobs ==> j in Apply(c, s, l).jobs && Apply(c, s, l).jobs[j] == s.jobs[j]
  {
    hide Inv, Enabled, Apply, PoliteInv;
    var j := s.handlers[g].msg.jobId;
    if l.StoreResult? {
      StoreBeforeSuccess(s, l);
      if s.handlers[l.h].msg.jobId == j {
        Exclusive(c, s, g, l.h);
      }
    }
    if j in s.jobs {
      RowWriter(c, s, l, j);
      if SwapLabel(l) && Works(s, l.h) && s.handlers[l.h].msg.jobId == j {
        Exclusive(c, s, g, l.h);
      }
    }
  }

  lemma SameStage(s: State, s': State, x: Handler)
    requires StageOk(s, x) && x.msg.jobId in s'.jobs && s'.jobs[x.msg.jobId] == s.jobs[x.msg.jobId]
    requires x.pc.Stored? && Agrees(s, x.msg.jobId, x.pc.rows) ==> Agrees(s', x.msg.jobId, x.pc.rows)
    ensures StageOk(s', x)
  {
    hide Agrees;
  }

  lemma BystanderStage(c: Config, s: State, l: Label, g: HandlerId)
    requires Inv(c, s) && PoliteInv(s) && Enabled(s, l)
    requires Works(Apply(c, s, l), g) && !(HandlerLabel(l) && l.h == g)
    ensures StageOk(Apply(c, s, l), Apply(c, s, l).handlers[g])
  {
    hide Apply, Agrees, Enabled, Inv, Working, HoldsRow;
    SameBystander(c, s, l, g);
    var x := s.handlers[g];
    OwnsRow(c, s, l, g);
    assert StageOk(s, x);
    hide PoliteInv;
    if x.pc.Stored? {
      AgreesKept(c, s, l, x.msg.jobId, x.pc.rows);
    }
    SameStage(s, Apply(c, s, l), x);
  }

  // ---- the recorded row count ----------------------------------------------

  lemma StoreBeforeSuccess(s: State, l: Label)
    requires PoliteInv(s) && Enabled(s, l) && l.StoreResult?
    ensures Works(s, l.h) && s.handlers[l.h].msg.jobId in s.jobs && s.jobs[s.handlers[l.h].msg.jobId].status == Executing
  {
    assert Works(s, l.h);
  }

  lemma SwapRecords(c: Config, s: State, l: Label, j: JobId)
    requires PoliteInv(s) && Enabled(s, l) && SwapLabel(l) && j in s.jobs
    ensures j in Apply(c, s, l).jobs
    ensures var r := Apply(c, s, l).jobs[j];
            r.status == Succeeded && r.rowCount.Some? ==> Agrees(s, j, r.rowCount.value)
  {
    SwapRow(c, s, l, j);
    assert Works(s, l.h) && StageOk(s, s.handlers[l.h]);
    assert s.jobs[j].status == Succeeded && s.jobs[j].rowCount.Some? ==> Agrees(s, j, s.jobs[j].rowCount.value);
    hide PoliteInv;
    SwapLands(c, s, l);
    hide Enabled, Apply, SwapOf, Agrees;
  }

  lemma SubmitRow(s: State, k: JobId, m: MessageId, owner: nat, j: JobId)
    requires k !in s.jobs && j in AfterSubmit(s, k, m, owner).jobs
    ensures if j in s.jobs then AfterSubmit(s, k, m, owner).jobs[j] == s.jobs[j]
            else AfterSubmit(s, k, m, owner).jobs[j].status == Queued
  {
  }

  lemma RecordedStep(c: Config, s: State, l: Label, j: JobId)
    requires PoliteInv(s) && Enabled(s, l) && j in Apply(c, s, l).jobs
    ensures var r := Apply(c, s, l).jobs[j];
            r.status == Succeeded && r.rowCount.Some? ==> Agrees(Apply(c, s, l), j, r.rowCount.value)
  {
    hide AfterSubmit, Agrees, StageOk;
    var r := Apply(c, s, l).jobs[j];
    if l.Submit? {
      SubmitRow(s, l.j, l.m, l.owner, j);
    } else {
      hide Apply, SameQueue;
      StepFrame(c, s, l);
      if SwapLabel(l) {
        SwapJobs(c, s, l);
        SwapRecords(c, s, l, j);
      }
    }
    hide Apply;
    if r.status == Succeeded && r.rowCount.Some? {
      if l.StoreResult? {
        StoreBeforeSuccess(s, l);
      }
      AgreesKept(c, s, l, j, r.rowCount.value);
    }
  }

  lemma SwapJobs(c: Config, s: State, l: Label)
    requires Enabled(s, l) && SwapLabel(l)
    ensures Apply(c, s, l).jobs.Keys == s.jobs.Keys
  {
    hide Apply, SwapOf, Swapped, Enabled, Working;
    ApplySwap(c, s, l);
    SwapShape(c, s, l);
    var j := s.handlers[l.h].msg.jobId;
    if j in s.jobs {
      var w := SwapOf(c, s, l);
      SwappedJobs(s, l.h, w.from, if s.jobs[j].status == w.from then s.jobs[j := w.row] else s.jobs, w.row.status, w.pc);
    }
  }

  // ---- every polite step, every polite run ---------------------------------

  lemma ActorFacts(c: Config, s: State, l: Label)
    requires Inv(c, s) && Enabled(s, l) && HandlerLabel(l)
    ensures l.h in s.handlers && ValidEnvelope(s.handlers[l.h].msg) && s.handlers[l.h].msg.jobId in s.jobs
  {
    assert l.h in s.handlers;
    hide Inv, Enabled, ValidEnvelope, RowOk, HandlerOk, PcOk;
    HandlerMessage(c, s, l.h);
    HandlerFacts(c, s, l.h);
  }

  lemma PoliteStep(c: Config, s: State, l: Label)
    requires c.maxRetries <= MAX_SANE_ATTEMPT && Inv(c, s) && PoliteInv(s) && Enabled(s, l) && Polite(s, l)
    ensures PoliteInv(Apply(c, s, l))
  {
    hide Inv, Apply, Enabled, StageOk, HoldsRow, Agrees, Polite;
    var s' := Apply(c, s, l);
    forall h | Works(s', h) ensures HoldsRow(s', s'.handlers[h]) && StageOk(s', s'.handlers[h]) {
      if HandlerLabel(l) && l.h == h {
        ActorFacts(c, s, l);
        ImpossibleSteps(c, s, l);
        ActorRow(c, s, l);
        ActorStage(c, s, l);
      } else {
        BystanderRow(c, s, l, h);
        BystanderStage(c, s, l, h);
      }
    }
    forall j | j in s'.jobs && s'.jobs[j].status == Succeeded && s'.jobs[j].rowCount.Some?
      ensures Agrees(s', j, s'.jobs[j].rowCount.value)
    {
      RecordedStep(c, s, l, j);
    }
  }

  ghost predicate PoliteRun(c: Config, s: State, ls: seq<Label>, s': State)
    decreases |ls|
  {
    if ls == [] then s' == s
    else Enabled(s, ls[0]) && Polite(s, ls[0]) && PoliteRun(c, Apply(c, s, ls[0]), ls[1..], s')
  }

  lemma {:induction false} PoliteRunKeeps(c: Config, s: State, ls: seq<Label>, s': State)
    requires c.maxRetries <= MAX_SANE_ATTEMPT && Inv(c, s) && PoliteInv(s) && PoliteRun(c, s, ls, s')
    ensures Inv(c, s') && PoliteInv(s') && Run(c, s, ls, s')
    decreases |ls|
  {
    hide Inv, PoliteInv, Grows, Apply, Enabled, Polite;
    if ls != [] {
      StepKeeps(c, s, ls[0]);
      PoliteStep(c, s, ls[0]);
      PoliteRunKeeps(c, Apply(c, s, ls[0]), ls[1..], s');
    }
  }

  ghost predicate PolitelyReachable(c: Config, s: State) {
    exists ls :: PoliteRun(c, Init(), ls, s)
  }

  lemma PolitelyReachableInv(c: Config, s: State)
    requires c.maxRetries <= MAX_SANE_ATTEMPT && PolitelyReachable(c, s)
    ensures Inv(c, s) && PoliteInv(s)
  {
    hide Inv, PoliteRun;
    var ls :| PoliteRun(c, Init(), ls, s);
    InitInv(c);
    PoliteRunKeeps(c, Init(), ls, s);
  }

  // Renewal in time is enough: where every working holder's lease is unexpired, a step is polite.
  lemma UnexpiredIsPolite(s: State, l: Label)
    requires forall g :: Works(s, g) && HoldsRow(s, s.handlers[g]) ==>
               s.clock < s.pm[s.handlers[g].msg.messageId].expiresAt
    ensures Polite(s, l)
  {
    if l.Claim? && l.h in s.handlers {
      forall g | Works(s, g) && s.handlers[g].msg.messageId == s.handlers[l.h].msg.messageId && HoldsRow(s, s.handlers[g])
        ensures Pm.Verdict(s.pm, s.handlers[l.h].msg.messageId, s.handlers[l.h].msg.kind, s.handlers[l.h].msg.jobId, s.clock)
                  != Pm.TakenOver
      {
        assert s.clock < s.pm[s.handlers[g].msg.messageId].expiresAt;
      }
    }
  }

  // At most one handler works on a job, and none of its updates is refused.
  lemma OneWorkerPerJob(c: Config, s: State, g: HandlerId, h: HandlerId)
    requires c.maxRetries <= MAX_SANE_ATTEMPT && PolitelyReachable(c, s)
    requires Works(s, g) && Works(s, h) && s.handlers[g].msg.jobId == s.handlers[h].msg.jobId
    ensures g == h
    ensures forall l :: Enabled(s, l) && SwapLabel(l) && l.h == h ==>
              h in Apply(c, s, l).handlers && Apply(c, s, l).handlers[h].pc != Aborted
  {
    hide PolitelyReachable, Inv, Enabled, Apply, StageOk;
    PolitelyReachableInv(c, s);
    Exclusive(c, s, g, h);
    forall l | Enabled(s, l) && SwapLabel(l) && l.h == h
      ensures h in Apply(c, s, l).handlers && Apply(c, s, l).handlers[h].pc != Aborted
    {
      NoSwapConflict(c, s, l);
    }
  }

  // The cached result is the recorded one.
  lemma CacheIsRecorded(c: Config, s: State, j: JobId)
    requires c.maxRetries <= MAX_SANE_ATTEMPT && PolitelyReachable(c, s)
    requires j in s.jobs && s.jobs[j].status == Succeeded && j !in s.log.evicted
    ensures j in s.store && s.jobs[j].rowCount == Some(s.store[j].rows)
    ensures s.jobs[j].resultExpiresAt.Some? && s.jobs[j].resultExpiresAt.value <= s.store[j].liveUntil
  {
    hide PolitelyReachable, Inv, PathOk;
    PolitelyReachableInv(c, s);
    InvRow(c, s, j);
  }
}
