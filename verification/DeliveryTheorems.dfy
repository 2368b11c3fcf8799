// What the delivery protocol guarantees in every run: the main results drawn
// from the invariant of DeliverySafety, and the exact place where it fails.
module DeliveryTheorems {
  import opened Options
  import opened JobStatus
  import opened Messages
  import opened QueryJobs
  import opened Delivery
  import opened DeliveryFrames
  import opened DeliverySafety
  import Pm = Idempotency

  // ---- no message is lost --------------------------------------------------

  // The newest message ever published for a job is still un-ACKed, unless the
  // idempotency row of the job is completed.
  lemma NewestIsCarried(c: Config, s: State, j: JobId)
    requires c.maxRetries <= MAX_SANE_ATTEMPT && Reachable(c, s) && j in s.log.newest
    ensures PmDone(s, j) || (s.log.newest[j] in s.inFlight && s.inFlight[s.log.newest[j]].msg.jobId == j)
  {
    hide Reachable, PmDone;
    ReachableInv(c, s);
    InvCarriers(c, s);
  }

  // A completed idempotency row means a terminal job, or a stale attempt was dropped.
  lemma CompletedMeansTerminal(c: Config, s: State, j: JobId)
    requires c.maxRetries <= MAX_SANE_ATTEMPT && Reachable(c, s) && PmDone(s, j)
    ensures Terminal(s, j) || j in s.log.stale
  {
    hide Reachable, Tokens;
    ReachableInv(c, s);
    InvTables(c, s);
  }

  // Without the stale-attempt branch, a published job is terminal or still has its carrier.
  lemma NoJobLost(c: Config, s: State, j: JobId)
    requires c.maxRetries <= MAX_SANE_ATTEMPT && Reachable(c, s) && j in s.log.newest && j !in s.log.stale
    ensures Terminal(s, j) || Carried(s, j)
  {
    hide Reachable, PmDone, Terminal;
    NewestIsCarried(c, s, j);
    if PmDone(s, j) {
      CompletedMeansTerminal(c, s, j);
    }
  }

  // ---- exactly how a job is lost -------------------------------------------

  predicate Lost(s: State, j: JobId) {
    PmDone(s, j) && !Terminal(s, j)
  }

  // The write that loses j: MarkCompleted by a current holder that took the
  // stale-attempt branch, while the job is not terminal.
  predicate Loses(s: State, l: Label, j: JobId) {
    && l.MarkDone? && At(s, l.h, Completing(StaleAttempt))
    && s.handlers[l.h].msg.jobId == j
    && Pm.Holds(s.pm, s.handlers[l.h].msg.messageId, s.handlers[l.h].token)
    && !Terminal(s, j)
  }

  lemma SubmitNotDone(s: State, k: JobId, m: MessageId, owner: nat, j: JobId)
    requires Ids(s) && PmRows(s) && m !in s.ids.Values && !PmDone(s, j)
    ensures !PmDone(AfterSubmit(s, k, m, owner), j)
  {
    assert forall i :: i in s.ids ==> s.ids[i] in s.ids.Values;
  }

  lemma ClaimNotDone(s: State, h: HandlerId, now: Time, j: JobId)
    requires h in s.handlers && !PmDone(s, j)
    ensures !PmDone(AfterClaim(s, h, now), j)
  {
    var m := s.handlers[h].msg;
    if ValidEnvelope(m) {
      ClaimShape(s.pm, m.messageId, m.kind, m.jobId, WrapUint8(ExtractAttempt(m.attempt).value), now, s.clock, s.nextToken);
    }
    hide Pm.Claimed, Pm.Verdict, ValidEnvelope, WrapUint8;
  }

  lemma LeaseNotDone(s: State, h: HandlerId, now: Time, j: JobId)
    requires h in s.handlers && !PmDone(s, j)
    ensures !PmDone(AfterRenew(s, h, now), j) && !PmDone(AfterMarkRetry(s, h), j)
  {
  }

  lemma MarkDoneOwn(c: Config, s: State, h: HandlerId, now: Time, j: JobId)
    requires h in s.handlers && MessageOk(c, s, s.handlers[h].msg) && Ids(s) && !PmDone(s, j)
    ensures PmDone(AfterMarkDone(s, h, now), j) <==>
              s.handlers[h].msg.jobId == j && Pm.Holds(s.pm, s.handlers[h].msg.messageId, s.handlers[h].token)
  {
    hide ValidEnvelope, ExtractAttempt;
  }

  // The row of a job becomes completed at exactly one kind of step.
  lemma DoneByMark(c: Config, s: State, l: Label, j: JobId)
    requires Inv(c, s) && Enabled(s, l) && !PmDone(s, j)
    ensures PmDone(Apply(c, s, l), j) <==>
              l.MarkDone? && s.handlers[l.h].msg.jobId == j
              && Pm.Holds(s.pm, s.handlers[l.h].msg.messageId, s.handlers[l.h].token)
  {
    hide Inv, Apply, Enabled, PmDone;
    if PmLabel(l) {
      PmDoneByMark(c, s, l, j);
    } else if l.Submit? {
      SubmittedNotDone(c, s, l, j);
    } else {
      SamePmNotDone(c, s, l, j);
    }
  }

  lemma SubmittedNotDone(c: Config, s: State, l: Label, j: JobId)
    requires Inv(c, s) && Enabled(s, l) && l.Submit? && !PmDone(s, j)
    ensures !PmDone(Apply(c, s, l), j)
  {
    hide Inv, AfterSubmit, Ids, PmRows, Tokens, PmDone;
    InvTables(c, s);
    SubmitNotDone(s, l.j, l.m, l.owner, j);
  }

  lemma PmDoneByMark(c: Config, s: State, l: Label, j: JobId)
    requires Inv(c, s) && Enabled(s, l) && PmLabel(l) && !PmDone(s, j)
    ensures PmDone(Apply(c, s, l), j) <==>
              l.MarkDone? && s.handlers[l.h].msg.jobId == j
              && Pm.Holds(s.pm, s.handlers[l.h].msg.messageId, s.handlers[l.h].token)
  {
    hide Inv, AfterClaim, AfterRenew, AfterMarkRetry, AfterMarkDone, PmRows, Ids, Tokens, MessageOk, PmDone;
    InvTables(c, s);
    match l {
      case Claim(h, now) => ClaimNotDone(s, h, now, j);
      case Renew(h, now) => LeaseNotDone(s, h, now, j);
      case MarkRetry(h) => LeaseNotDone(s, h, 0, j);
      case MarkDone(h, now) =>
        HandlerMessage(c, s, h);
        MarkDoneOwn(c, s, h, now, j);
    }
  }

  lemma HandlerMessage(c: Config, s: State, h: HandlerId)
    requires Inv(c, s) && h in s.handlers
    ensures MessageOk(c, s, s.handlers[h].msg)
  {
    hide Inv, RowOk, PcOk;
    HandlerFacts(c, s, h);
  }

  lemma SamePmNotDone(c: Config, s: State, l: Label, j: JobId)
    requires Enabled(s, l) && !PmLabel(l) && !l.Submit?
    ensures PmDone(Apply(c, s, l), j) == PmDone(s, j)
  {
    hide Enabled, Apply, SameJobs, SameQueue;
    StepFrame(c, s, l);
  }

  // A step loses a job exactly when it is the stale holder's MarkCompleted.
  lemma LostExactlyByStaleMark(c: Config, s: State, l: Label, j: JobId)
    requires c.maxRetries <= MAX_SANE_ATTEMPT && Reachable(c, s) && Enabled(s, l) && !Lost(s, j)
    ensures Lost(Apply(c, s, l), j) <==> Loses(s, l, j)
  {
    hide Reachable, Inv, Apply;
    ReachableInv(c, s);
    StepKeeps(c, s, l);
    var s' := Apply(c, s, l);
    assert Terminal(s, j) ==> Terminal(s', j);
    hide Grows;
    if !PmDone(s, j) && !Terminal(s, j) {
      DoneByMark(c, s, l, j);
      if l.MarkDone? {
        assert Terminal(s', j) == Terminal(s, j) by {
          StepFrame(c, s, l);
        }
        MarkDoneCause(c, s, l.h, l.now);
      }
    }
  }

  lemma MarkDoneCause(c: Config, s: State, h: HandlerId, now: Time)
    requires Inv(c, s) && Enabled(s, MarkDone(h, now))
    ensures s.handlers[h].pc == Completing(StaleAttempt) || Terminal(s, s.handlers[h].msg.jobId)
  {
    hide Inv, RowOk, HandlerOk;
    HandlerFacts(c, s, h);
  }

  // ---- a lost job is lost for good -----------------------------------------

  // The idempotency row is completed and nobody is past its claim any more.
  ghost predicate Abandoned(s: State, j: JobId) {
    && j in s.jobs && PmDone(s, j)
    && (forall h :: h in s.handlers && s.handlers[h].msg.jobId == j ==> !Working(s.handlers[h].pc))
  }

  lemma DoneClaimIdle(c: Config, s: State, h: HandlerId, now: Time)
    requires Inv(c, s) && At(s, h, Received) && PmDone(s, s.handlers[h].msg.jobId)
    ensures h in AfterClaim(s, h, now).handlers && !Working(AfterClaim(s, h, now).handlers[h].pc)
  {
    hide Inv, Tokens, Ids, PmRows, PmDone;
    InvTables(c, s);
    HandlerMessage(c, s, h);
    ClaimVerdict(c, s, s.handlers[h].msg);
    hide Pm.Verdict, Pm.Claimed, ValidEnvelope;
  }

  lemma AbandonedWorkers(c: Config, s: State, l: Label, j: JobId, g: HandlerId)
    requires Inv(c, s) && Enabled(s, l) && Abandoned(s, j)
    requires g in Apply(c, s, l).handlers && Apply(c, s, l).handlers[g].msg.jobId == j
    ensures !Working(Apply(c, s, l).handlers[g].pc)
  {
    hide Inv, Apply, Working, AfterClaim, PmDone;
    if Working(Apply(c, s, l).handlers[g].pc) {
      WorkStartsAtClaim(c, s, l, g);
      if l.Claim? && l.h == g {
        ApplyClaim(c, s, g, l.now);
        ClaimFrame(s, g, l.now);
        DoneClaimIdle(c, s, g, l.now);
      }
    }
  }

  lemma DoneStays(c: Config, s: State, l: Label, j: JobId)
    requires c.maxRetries <= MAX_SANE_ATTEMPT && Inv(c, s) && Enabled(s, l) && PmDone(s, j)
    ensures PmDone(Apply(c, s, l), j)
  {
    hide Inv, Apply, Enabled;
    StepKeeps(c, s, l);
  }

  lemma AbandonedStep(c: Config, s: State, l: Label, j: JobId)
    requires c.maxRetries <= MAX_SANE_ATTEMPT && Inv(c, s) && Enabled(s, l) && Abandoned(s, j)
    ensures Abandoned(Apply(c, s, l), j) && Apply(c, s, l).jobs[j] == s.jobs[j]
  {
    hide Inv, Apply, Working, Enabled, PmDone;
    var s' := Apply(c, s, l);
    DoneStays(c, s, l, j);
    RowWriter(c, s, l, j);
    forall g | g in s'.handlers && s'.handlers[g].msg.jobId == j ensures !Working(s'.handlers[g].pc) {
      AbandonedWorkers(c, s, l, j, g);
    }
  }

  // Whatever happens next, an abandoned job keeps its row: if it was not
  // terminal it never will be.
  lemma {:induction false} AbandonedForever(c: Config, s: State, ls: seq<Label>, s': State, j: JobId)
    requires c.maxRetries <= MAX_SANE_ATTEMPT && Inv(c, s) && Run(c, s, ls, s') && Abandoned(s, j)
    ensures Abandoned(s', j) && s'.jobs[j] == s.jobs[j]
    decreases |ls|
  {
    hide Inv, Apply, Enabled, Abandoned, Grows;
    if ls != [] {
      AbandonedStep(c, s, ls[0], j);
      StepKeeps(c, s, ls[0]);
      AbandonedForever(c, Apply(c, s, ls[0]), ls[1..], s', j);
    }
  }

  lemma ApplyClaim(c: Config, s: State, h: HandlerId, now: Time)
    requires Enabled(s, Claim(h, now))
    ensures Apply(c, s, Claim(h, now)) == AfterClaim(s, h, now)
  {
  }

  // ---- status history ------------------------------------------------------

  lemma InvRow(c: Config, s: State, j: JobId)
    requires Inv(c, s) && j in s.jobs
    ensures RowOk(c, s, j, s.jobs[j]) && PathOk(s, j)
  {
    hide RowOk, PathOk, PmRows, Envelopes, Tokens, Carriers, Cache, Handlers, Ids;
  }

  // The statuses a row went through form a path of the transition table,
  // although no update consults the table.
  lemma HistoryIsPath(c: Config, s: State, j: JobId)
    requires c.maxRetries <= MAX_SANE_ATTEMPT && Reachable(c, s) && j in s.jobs
    ensures j in s.log.path && IsPath(s.log.path[j]) && |s.log.path[j]| > 0
    ensures s.log.path[j][0] == Pending
    ensures s.log.path[j][|s.log.path[j]| - 1] == s.jobs[j].status != Pending
  {
    hide Reachable, Inv, Allowed, Kept;
    ReachableInv(c, s);
    InvRow(c, s, j);
  }

  // The last four statuses of a job that succeeded.
  ghost predicate WentThrough(s: State, j: JobId) {
    && j in s.log.path && |s.log.path[j]| >= 4
    && s.log.path[j][|s.log.path[j]| - 4..] == [Generating, Status.Validating, Executing, Succeeded]
  }

  lemma StageBefore(s: Status, next: Status)
    requires Allowed(s, next)
    ensures next == Succeeded ==> s == Executing
    ensures next == Executing ==> s == Status.Validating
    ensures next == Status.Validating ==> s == Generating
    ensures next == Generating ==> s != Succeeded
  {
    // one arm of the table at a time
    match s {
      case Pending => assert next in [Queued, Failed];
      case Queued => assert next in [Generating, Failed];
      case Generating => assert next in [Status.Validating, Retrying, Failed];
      case Validating => assert next in [Executing, Retrying, Failed];
      case Executing => assert next in [Succeeded, Retrying, Failed];
      case Retrying => assert next in [Generating, Failed];
      case _ =>
    }
  }

  lemma LastStages(p: seq<Status>)
    requires |p| > 0 && IsPath(p) && p[0] == Pending && p[|p| - 1] == Succeeded
    ensures |p| >= 4 && p[|p| - 4..] == [Generating, Status.Validating, Executing, Succeeded]
  {
    hide Allowed;
    var n := |p|;
    StageBefore(p[n - 2], p[n - 1]);
    StageBefore(p[n - 3], p[n - 2]);
    StageBefore(p[n - 4], p[n - 3]);
  }

  // A job succeeds only through all stages in order, whoever moved it.
  lemma SucceededWentThrough(c: Config, s: State, j: JobId)
    requires Inv(c, s) && j in s.jobs
    ensures s.jobs[j].status == Succeeded ==> WentThrough(s, j)
  {
    hide Inv, IsPath, RowOk;
    InvRow(c, s, j);
    if s.jobs[j].status == Succeeded {
      LastStages(s.log.path[j]);
    }
  }

  // Terminal rows never change again; before that no terminal column is set.
  lemma TerminalColumnsWrittenOnce(c: Config, s: State, ls: seq<Label>, s': State, j: JobId)
    requires c.maxRetries <= MAX_SANE_ATTEMPT && Reachable(c, s) && Run(c, s, ls, s') && j in s.jobs
    ensures Terminal(s, j) ==> j in s'.jobs && s'.jobs[j] == s.jobs[j]
    ensures !Terminal(s, j) ==>
              s.jobs[j].errorCode == None && s.jobs[j].rowCount == None
              && s.jobs[j].finishedAt == None && s.jobs[j].resultExpiresAt == None
    ensures s.jobs[j].status == Succeeded ==> s.jobs[j].rowCount.Some? && s.jobs[j].resultExpiresAt.Some?
                                              && s.jobs[j].finishedAt.Some? && s.jobs[j].errorCode == None
                                              && s.jobs[j].resultExpiresAt.value == s.jobs[j].finishedAt.value + c.resultTTL
    ensures s.jobs[j].status == Failed ==> s.jobs[j].errorCode.Some? && s.jobs[j].finishedAt.Some?
                                           && s.jobs[j].rowCount == None && s.jobs[j].resultExpiresAt == None
  {
    hide Reachable, Inv, PathOk, Kept, DlqHas, Run;
    ReachableInv(c, s);
    InvRow(c, s, j);
    RunKeeps(c, s, ls, s');
  }

  // ---- one message identity per job ----------------------------------------

  lemma InvEnvelope(c: Config, s: State, q: Seq)
    requires Inv(c, s) && q in s.inFlight
    ensures MessageOk(c, s, s.inFlight[q].msg)
  {
    hide Ids, Handlers, Jobs, PmRows, Tokens, Carriers, Cache, ValidEnvelope, ExtractAttempt;
  }

  // Retries and deferred copies carry the message id of the outbox row, and an
  // attempt that every conversion and the header check let through.
  lemma OneMessageIdentity(c: Config, s: State, q: Seq)
    requires c.maxRetries <= MAX_SANE_ATTEMPT && Reachable(c, s) && q in s.inFlight
    ensures var m := s.inFlight[q].msg;
            && m.jobId in s.ids && m.messageId == s.ids[m.jobId] && ValidEnvelope(m)
            && (ExtractAttempt(m.attempt).value == 0 || ExtractAttempt(m.attempt).value <= c.maxRetries)
  {
    hide Reachable, Inv;
    ReachableInv(c, s);
    InvEnvelope(c, s, q);
  }

  // So a claim never meets a conflict, and the direct route to the DLQ is never taken.
  lemma NoConflict(c: Config, s: State, h: HandlerId)
    requires c.maxRetries <= MAX_SANE_ATTEMPT && Reachable(c, s) && h in s.handlers
    ensures var m := s.handlers[h].msg;
            ValidEnvelope(m) && Pm.Verdict(s.pm, m.messageId, m.kind, m.jobId, s.clock) != Pm.Conflict
    ensures s.handlers[h].pc != Rejecting && s.handlers[h].pc != Orphaned
    ensures forall n :: n in s.pm && s.pm[n].jobId == s.handlers[h].msg.jobId ==> n == s.handlers[h].msg.messageId
  {
    hide Reachable, Inv, Tokens, Ids, RowOk;
    ReachableInv(c, s);
    InvTables(c, s);
    HandlerMessage(c, s, h);
    HandlerFacts(c, s, h);
    hide HandlerOk;
    ClaimVerdict(c, s, s.handlers[h].msg);
    hide Pm.Verdict, ValidEnvelope;
    assert forall n :: n in s.pm ==> s.pm[n].jobId in s.ids && s.ids[s.pm[n].jobId] == n;
  }

  // ---- fencing of processed_messages ---------------------------------------

  // What the lease operation l of a handler can do to the table.
  ghost predicate LeaseEffect(s: State, s': State, h: HandlerId, claim: bool, mark: bool) {
    && h in s.handlers
    && var t, t', m := s.pm, s'.pm, s.handlers[h].msg.messageId;
    && (forall n :: n in t ==> n in t')
    && (forall n :: n in t && n != m ==> t'[n] == t[n])
    && (m in t && t[m].status == Pm.Completed && !mark ==> t'[m] == t[m])
    && (claim ==> t' == t || (m in t' && t'[m].token == s.nextToken))
    && (!claim && t' != t ==> m in t && t[m].token == s.handlers[h].token && t'[m].token == t[m].token)
  }

  lemma ClaimEffect(s: State, h: HandlerId, now: Time)
    requires h in s.handlers
    ensures LeaseEffect(s, AfterClaim(s, h, now), h, true, false)
  {
    var m := s.handlers[h].msg;
    if ValidEnvelope(m) {
      ClaimShape(s.pm, m.messageId, m.kind, m.jobId, WrapUint8(ExtractAttempt(m.attempt).value), now, s.clock, s.nextToken);
    }
    hide Pm.Claimed, Pm.Verdict, ValidEnvelope, WrapUint8;
  }

  lemma RenewEffect(s: State, h: HandlerId, now: Time)
    requires h in s.handlers
    ensures LeaseEffect(s, AfterRenew(s, h, now), h, false, false)
    ensures LeaseEffect(s, AfterMarkRetry(s, h), h, false, false)
  {
  }

  lemma MarkDoneEffect(s: State, h: HandlerId, now: Time)
    requires h in s.handlers
    ensures LeaseEffect(s, AfterMarkDone(s, h, now), h, false, true)
  {
  }

  lemma PmEffect(c: Config, s: State, l: Label)
    requires Enabled(s, l) && PmLabel(l)
    ensures LeaseEffect(s, Apply(c, s, l), l.h, l.Claim?, l.MarkDone?)
  {
    hide AfterClaim, AfterRenew, AfterMarkRetry, AfterMarkDone, LeaseEffect;
    match l {
      case Claim(h, now) => ClaimEffect(s, h, now);
      case Renew(h, now) => RenewEffect(s, h, now);
      case MarkRetry(h) => RenewEffect(s, h, 0);
      case MarkDone(h, now) => MarkDoneEffect(s, h, now);
    }
  }

  // A handler whose token is no longer the one in its row.
  predicate FencedOff(s: State, h: HandlerId) {
    && h in s.handlers && s.handlers[h].pc != Received
    && s.handlers[h].msg.messageId in s.pm
    && s.pm[s.handlers[h].msg.messageId].token != s.handlers[h].token
  }

  lemma HandlerToken(c: Config, s: State, l: Label, h: HandlerId)
    requires Inv(c, s) && Enabled(s, l) && h in s.handlers && h in Apply(c, s, l).handlers && s.handlers[h].pc != Received
    ensures Apply(c, s, l).handlers[h].token == s.handlers[h].token
    ensures Apply(c, s, l).handlers[h].msg == s.handlers[h].msg && Apply(c, s, l).handlers[h].pc != Received
  {
    hide Inv, Apply, Enabled, SameJobs, SameQueue;
    if HandlerLabel(l) {
      StepFrame(c, s, l);
    } else {
      InvHandlerIds(c, s);
      OutsideHandlers(c, s, l, h);
    }
  }

  lemma InvHandlerIds(c: Config, s: State)
    requires Inv(c, s)
    ensures forall h :: h in s.handlers ==> h < s.nextHandler
  {
    hide HandlerOk, Ids, PmRows, Tokens, Envelopes, Jobs, Carriers, Cache;
  }

  lemma FencedStep(c: Config, s: State, l: Label, h: HandlerId)
    requires Inv(c, s) && Enabled(s, l) && FencedOff(s, h) && h in Apply(c, s, l).handlers
    ensures FencedOff(Apply(c, s, l), h)
    ensures PmLabel(l) && l.h == h ==> Apply(c, s, l).pm == s.pm
  {
    hide Inv, Apply, SameJobs, SameQueue, HandlerFrame, Tokens, Ids, PmRows;
    HandlerToken(c, s, l, h);
    InvTables(c, s);
    if PmLabel(l) {
      PmEffect(c, s, l);
    } else {
      StepFrame(c, s, l);
    }
  }

  // Once another worker has the lease, the old token stays worthless for as long
  // as its handler runs, and nothing that handler does changes the table.
  lemma {:induction false} SupersededForever(c: Config, s: State, ls: seq<Label>, s': State, h: HandlerId)
    requires c.maxRetries <= MAX_SANE_ATTEMPT && Inv(c, s) && Run(c, s, ls, s')
    requires FencedOff(s, h) && h in s'.handlers
    ensures FencedOff(s', h)
    ensures forall l :: Enabled(s', l) && PmLabel(l) && l.h == h ==> Apply(c, s', l).pm == s'.pm
    decreases |ls|
  {
    hide Inv, Apply, Enabled;
    if ls != [] {
      StepKeeps(c, s, ls[0]);
      InvHandlerIds(c, s);
      assert h < Apply(c, s, ls[0]).nextHandler;
    }
    hide Grows, FencedOff;
    if ls == [] {
      forall l | Enabled(s', l) && PmLabel(l) && l.h == h ensures Apply(c, s', l).pm == s'.pm {
        OwnLeaseStep(c, s', l);
        FencedStep(c, s', l, h);
      }
    } else {
      var t := Apply(c, s, ls[0]);
      HandlersGoneStayGone(c, t, ls[1..], s', h);
      FencedStep(c, s, ls[0], h);
      SupersededForever(c, t, ls[1..], s', h);
    }
  }

  lemma OwnLeaseStep(c: Config, s: State, l: Label)
    requires Enabled(s, l) && PmLabel(l)
    ensures l.h in Apply(c, s, l).handlers
  {
    hide Enabled, Apply, SameJobs, SameQueue;
    StepFrame(c, s, l);
  }

  lemma GoneStep(c: Config, s: State, l: Label, h: HandlerId)
    requires Enabled(s, l) && h !in s.handlers && h < s.nextHandler
    ensures h !in Apply(c, s, l).handlers && h < Apply(c, s, l).nextHandler
  {
    hide Apply, Enabled, SameJobs, SameQueue;
    if HandlerLabel(l) {
      StepFrame(c, s, l);
    } else {
      NextHandlerGrows(c, s, l);
      if h in Apply(c, s, l).handlers {
        OutsideHandlers(c, s, l, h);
      }
    }
  }

  lemma NextHandlerGrows(c: Config, s: State, l: Label)
    requires Enabled(s, l) && !HandlerLabel(l)
    ensures s.nextHandler <= Apply(c, s, l).nextHandler
  {
    hide Returned, Acked, OutboxMessage, Transitioned, AfterSurface;
    if l.Surface? {
      SurfaceFrame(s, l.w);
    }
  }

  // Handler ids are never reused.
  lemma {:induction false} HandlersGoneStayGone(c: Config, s: State, ls: seq<Label>, s': State, h: HandlerId)
    requires Run(c, s, ls, s') && h in s'.handlers && h < s.nextHandler
    ensures h in s.handlers
    decreases |ls|
  {
    hide Apply, Enabled;
    if ls != [] && h !in s.handlers {
      GoneStep(c, s, ls[0], h);
      HandlersGoneStayGone(c, Apply(c, s, ls[0]), ls[1..], s', h);
    }
  }

  // completed is absorbing although MarkCompleted checks no status: no step
  // of a reachable state changes anything in a completed row.
  lemma CompletedRowFrozen(c: Config, s: State, l: Label, m: MessageId)
    requires c.maxRetries <= MAX_SANE_ATTEMPT && Reachable(c, s) && Enabled(s, l)
    requires m in s.pm && s.pm[m].status == Pm.Completed
    ensures m in Apply(c, s, l).pm && Apply(c, s, l).pm[m] == s.pm[m]
  {
    hide Reachable, Inv, Apply, SameJobs, SameQueue, HandlerFrame, Ids, PmRows;
    ReachableInv(c, s);
    InvTables(c, s);
    if PmLabel(l) {
      PmEffect(c, s, l);
      assert l.MarkDone? ==> Working(s.handlers[l.h].pc);
    } else {
      StepFrame(c, s, l);
    }
  }

  // The current, unexpired holder of a job's lease.
  predicate HoldsLease(s: State, h: HandlerId, j: JobId) {
    && h in s.handlers && s.handlers[h].msg.jobId == j && Working(s.handlers[h].pc)
    && Pm.HoldsProcessing(s.pm, s.handlers[h].msg.messageId, s.handlers[h].token)
    && s.clock < s.pm[s.handlers[h].msg.messageId].expiresAt
  }

  // At most one per job, and a claim hands out a lease only when there is none.
  lemma OneLeaseHolder(c: Config, s: State, g: HandlerId, h: HandlerId, j: JobId)
    requires c.maxRetries <= MAX_SANE_ATTEMPT && Reachable(c, s)
    requires HoldsLease(s, g, j) && HoldsLease(s, h, j)
    ensures g == h
  {
    hide Reachable, Inv, Ids, PmRows;
    ReachableInv(c, s);
    InvTables(c, s);
    HandlerMessage(c, s, g);
    HandlerMessage(c, s, h);
  }

  lemma ClaimWaitsForExpiry(c: Config, s: State, h: HandlerId, now: Time, g: HandlerId)
    requires c.maxRetries <= MAX_SANE_ATTEMPT && Reachable(c, s) && Enabled(s, Claim(h, now))
    requires HoldsLease(s, g, s.handlers[h].msg.jobId)
    ensures Apply(c, s, Claim(h, now)).pm == s.pm
  {
    hide Reachable, Inv;
    ReachableInv(c, s);
    HandlerMessage(c, s, g);
    HandlerMessage(c, s, h);
    InvTables(c, s);
    ApplyClaim(c, s, h, now);
    hide Apply, Ids, PmRows, Tokens;
    HandlerIdentity(c, s, h);
  }

  // ---- causes come before states -------------------------------------------

  // retrying with count n: attempt n was published first. failed after the last
  // retry: a dead-letter copy exists. succeeded: the result was cached.
  lemma CauseBeforeState(c: Config, s: State, j: JobId)
    requires c.maxRetries <= MAX_SANE_ATTEMPT && Reachable(c, s) && j in s.jobs
    ensures s.jobs[j].status == Retrying ==> (j, s.jobs[j].attemptCount) in s.log.sent
    ensures s.jobs[j].errorCode == Some(MaxRetriesExceeded) ==> exists m :: m in s.dlq && m.jobId == j
    ensures s.jobs[j].status == Succeeded ==> j in s.log.cached
    ensures s.jobs[j].attemptCount == 0 || s.jobs[j].attemptCount <= c.maxRetries
  {
    hide Reachable, Inv, PathOk, Kept;
    ReachableInv(c, s);
    InvRow(c, s, j);
  }
}
