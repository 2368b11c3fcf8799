// Clean runs of the whole system: no fault falls between a confirmed publish and
// the writes that follow it, on either side, and nobody loses a lease in use. A job
// then has exactly one carrier from its commit on: first its outbox row, then a message.
module CleanSystem {
  import opened Options
  import opened Messages
  import opened Delivery
  import opened DeliveryFrames
  import opened DeliverySafety
  import opened PoliteRuns
  import opened CleanRuns
  import opened WholeSystem
  import Outbox
  import Dispatch

  // ---- the outbox side -----------------------------------------------------

  predicate CleanAct(d: Dispatch.Desk, a: Dispatch.Act) {
    match a
    case Send(_, p) => p != EnteredButFailed
    case Surface(_) => false
    case Drop(k) => k.phase != Dispatch.Phase.Confirmed
    case ClaimDue(ids, _) =>
      forall k :: k in d.tickets && k.event in ids && k.event in d.rows ==> d.rows[k.event].leaseToken != Some(k.token)
    case _ => true
  }

  // The event entered and only waits to be marked.
  ghost predicate Marking(d: Dispatch.Desk, i: Outbox.EventId) {
    exists k :: k in d.tickets && k.event == i && k.phase == Dispatch.Phase.Confirmed
  }

  ghost predicate DeskClean(d: Dispatch.Desk) {
    && (forall k :: k in d.tickets ==> k.event in d.rows && d.rows[k.event].leaseToken == Some(k.token))
    && (forall k, l :: k in d.tickets && l in d.tickets && k.event == l.event ==> k == l)
    && (forall k :: k in d.tickets && k.phase != Dispatch.Phase.Confirmed ==> k.event !in d.log.entered)
    && (forall i :: i in d.log.entered && i in d.rows && d.rows[i].status != Outbox.Published ==> Marking(d, i))
  }

  lemma MarkingStays(d: Dispatch.Desk, d': Dispatch.Desk, i: Outbox.EventId)
    requires Marking(d, i)
    requires forall k :: k in d.tickets && k.event == i && k.phase == Dispatch.Phase.Confirmed ==> k in d'.tickets
    ensures Marking(d', i)
  {
  }

  lemma ClaimDueClean(dc: Dispatch.DispatcherConfig, d: Dispatch.Desk, a: Dispatch.Act)
    requires Dispatch.DeskOk(dc, d) && DeskClean(d) && Dispatch.Allowed(d, a) && CleanAct(d, a) && a.ClaimDue?
    ensures DeskClean(Dispatch.Perform(dc, d, a))
  {
    var d' := Dispatch.Perform(dc, d, a);
    assert forall k :: k in d.tickets ==> k.event !in a.ids;
    forall i | i in d'.log.entered && i in d'.rows && d'.rows[i].status != Outbox.Published ensures Marking(d', i) {
      assert Dispatch.EventOk(dc, d, i, d.rows[i]);
      MarkingStays(d, d', i);
    }
  }

  lemma SendClean(dc: Dispatch.DispatcherConfig, d: Dispatch.Desk, a: Dispatch.Act)
    requires DeskClean(d) && Dispatch.Allowed(d, a) && CleanAct(d, a) && a.Send?
    ensures DeskClean(Dispatch.Perform(dc, d, a))
  {
    var d' := Dispatch.Perform(dc, d, a);
    forall i | i in d'.log.entered && i in d'.rows && d'.rows[i].status != Outbox.Published ensures Marking(d', i) {
      if i == a.k.event && a.p == Delivery.Confirmed {
        assert a.k.(phase := Dispatch.Phase.Confirmed) in d'.tickets;
      } else {
        MarkingStays(d, d', i);
      }
    }
  }

  lemma SettleClean(dc: Dispatch.DispatcherConfig, d: Dispatch.Desk, a: Dispatch.Act)
    requires Dispatch.DeskOk(dc, d) && DeskClean(d) && Dispatch.Allowed(d, a) && CleanAct(d, a)
    requires a.Mark? || a.Release? || a.Drop?
    ensures DeskClean(Dispatch.Perform(dc, d, a))
  {
    var d' := Dispatch.Perform(dc, d, a);
    assert Dispatch.EventOk(dc, d, a.k.event, d.rows[a.k.event]);
    forall i | i in d'.log.entered && i in d'.rows && d'.rows[i].status != Outbox.Published ensures Marking(d', i) {
      assert i != a.k.event;
      MarkingStays(d, d', i);
    }
  }

  lemma AsideDeskClean(dc: Dispatch.DispatcherConfig, d: Dispatch.Desk, a: Dispatch.Act)
    requires Dispatch.DeskOk(dc, d) && DeskClean(d) && Dispatch.Allowed(d, a) && (a.Pass? || a.Insert? || a.Clean?)
    ensures DeskClean(Dispatch.Perform(dc, d, a))
  {
    var d' := Dispatch.Perform(dc, d, a);
    forall i | i in d'.log.entered && i in d'.rows && d'.rows[i].status != Outbox.Published ensures Marking(d', i) {
      MarkingStays(d, d', i);
    }
  }

  lemma DeskCleanStep(dc: Dispatch.DispatcherConfig, d: Dispatch.Desk, a: Dispatch.Act)
    requires Dispatch.DeskOk(dc, d) && DeskClean(d) && Dispatch.Allowed(d, a) && CleanAct(d, a)
    ensures DeskClean(Dispatch.Perform(dc, d, a))
  {
    hide Dispatch.DeskOk, DeskClean, Dispatch.Allowed, Dispatch.Perform;
    match a {
      case ClaimDue(_, _) => ClaimDueClean(dc, d, a);
      case Send(_, _) => SendClean(dc, d, a);
      case Mark(_, _) => SettleClean(dc, d, a);
      case Release(_, _) => SettleClean(dc, d, a);
      case Drop(_) => SettleClean(dc, d, a);
      case _ => AsideDeskClean(dc, d, a);
    }
  }

  // ---- both sides together -------------------------------------------------

  ghost predicate CleanMove(c: Config, x: System, m: Move) {
    match m
    case Post(k, p) => p == Delivery.Confirmed
    case PostLate(_) => false
    case Desk(a) => CleanAct(x.desk, a)
    case Work(l) => Clean(c, x.state, l)
    case _ => true
  }

  // The identity of rows and jobs is one to one, and a job has messages only after its event entered.
  ghost predicate Known(x: System) {
    && (forall e :: e in x.jobOf ==> x.jobOf[e] in x.eventOf && x.eventOf[x.jobOf[e]] == e)
    && (forall e :: e in x.jobOf && x.jobOf[e] in x.state.log.newest ==> e in x.desk.log.entered)
  }

  ghost predicate CleanSystemInv(dc: Dispatch.DispatcherConfig, c: Config, x: System) {
    SystemInv(dc, c, x) && PoliteInv(x.state) && CleanInv(c, x.state) && DeskClean(x.desk) && Known(x)
  }

  lemma PublishedNewest(s: State, h: HandlerId, m: Message, p: Publish, pc: Pc)
    requires h in s.handlers && m.jobId in s.log.newest
    ensures Published(s, h, m, p, pc).log.newest.Keys == s.log.newest.Keys
    ensures DeadLetter(s, h, m, p, pc).log.newest.Keys == s.log.newest.Keys
  {
  }

  lemma SendNextNewest(c: Config, s: State, h: HandlerId, p: Publish)
    requires h in s.handlers && s.handlers[h].pc.Rescheduling? && s.handlers[h].msg.jobId in s.log.newest
    ensures AfterSendNext(c, s, h, p).log.newest.Keys == s.log.newest.Keys
  {
    hide WorkerMessage, NextAttempt, Published, DeadLetter;
    var x := s.handlers[h];
    var j, next := x.msg.jobId, NextAttempt(x.attempt);
    var t := if p == NotEntered then s else s.(log := s.log.(sent := s.log.sent + {(j, next)}));
    WorkerJob(j, x.msg.messageId, next);
    WorkerJob(j, x.msg.messageId, x.attempt);
    PublishedNewest(t, h, WorkerMessage(j, x.msg.messageId, next), p, RetrySent(x.pc.from));
    PublishedNewest(s, h, WorkerMessage(j, x.msg.messageId, x.attempt), p, DlqSent(x.pc.from));
  }

  lemma SendNewest(c: Config, s: State, l: Label)
    requires Enabled(s, l) && SendLabel(l) && s.handlers[l.h].msg.jobId in s.log.newest
    ensures Apply(c, s, l).log.newest.Keys == s.log.newest.Keys
  {
    hide WorkerMessage, Published, AfterSendNext;
    if l.SendNext? {
      SendNextNewest(c, s, l.h, l.p);
    } else {
      var y := s.handlers[l.h];
      WorkerJob(y.msg.jobId, y.msg.messageId, y.attempt);
      PublishedNewest(s, l.h, WorkerMessage(y.msg.jobId, y.msg.messageId, y.attempt), l.p, Acking(true));
    }
  }

  lemma BrokerNewest(c: Config, s: State, l: Label)
    requires Enabled(s, l) && !HandlerLabel(l) && !l.Submit? && !l.MainPublish? && !l.Surface?
    ensures Apply(c, s, l).log.newest == s.log.newest
  {
    hide Returned, Acked;
  }

  // Workers publish only for jobs that have messages already.
  lemma WorkNewest(c: Config, s: State, l: Label)
    requires Inv(c, s) && Enabled(s, l) && !l.Submit? && !l.MainPublish? && !l.Surface?
    ensures Apply(c, s, l).log.newest.Keys == s.log.newest.Keys
  {
    hide Inv, Apply, SameJobs, SameCache, OwnTags;
    if !HandlerLabel(l) {
      BrokerNewest(c, s, l);
    } else {
      assert l.h in s.handlers;
      hide Enabled;
      if SendLabel(l) {
        Ownership(c, s, l.h);
        SendNewest(c, s, l);
      } else {
        StepFrame(c, s, l);
      }
    }
  }

  lemma SubmitNewest(c: Config, s: State, j: JobId, m: MessageId, owner: nat)
    requires Enabled(s, Submit(j, m, owner))
    ensures Apply(c, s, Submit(j, m, owner)).log.newest == s.log.newest
  {
  }

  // ---- every clean move ----------------------------------------------------

  // The state side of a move.
  lemma StateClean(c: Config, s: State, l: Label)
    requires c.maxRetries <= MAX_SANE_ATTEMPT && Inv(c, s) && PoliteInv(s) && CleanInv(c, s)
    requires Enabled(s, l) && Clean(c, s, l)
    ensures PoliteInv(Apply(c, s, l)) && CleanInv(c, Apply(c, s, l))
  {
    hide Inv, PoliteInv, CleanInv, Enabled, Apply, Polite;
    PoliteStep(c, s, l);
    CleanStep(c, s, l);
  }

  lemma FirstPost(dc: Dispatch.DispatcherConfig, c: Config, x: System, k: Dispatch.Ticket)
    requires Known(x) && DeskClean(x.desk) && Can(x, Post(k, Delivery.Confirmed))
    ensures x.jobOf[k.event] !in x.state.log.newest
  {
  }

  lemma KnownFrame(x: System, x': System)
    requires Known(x) && x'.jobOf == x.jobOf && x'.eventOf == x.eventOf
    requires x.desk.log.entered <= x'.desk.log.entered
    requires forall j :: j in x'.state.log.newest ==>
               j in x.state.log.newest || (j in x.eventOf && x.eventOf[j] in x'.desk.log.entered)
    ensures Known(x')
  {
  }

  lemma PostNewest(c: Config, s: State, j: JobId)
    requires Enabled(s, MainPublish(j))
    ensures Apply(c, s, MainPublish(j)).log.newest.Keys == s.log.newest.Keys + {j}
  {
  }

  lemma KnownPost(dc: Dispatch.DispatcherConfig, c: Config, x: System, k: Dispatch.Ticket)
    requires Known(x) && Can(x, Post(k, Delivery.Confirmed))
    ensures Known(Do(dc, c, x, Post(k, Delivery.Confirmed)))
  {
    hide Enabled, Apply, Dispatch.Allowed;
    var x' := Do(dc, c, x, Post(k, Delivery.Confirmed));
    var j := x.jobOf[k.event];
    PostNewest(c, x.state, j);
    DeskIdentity(dc, x.desk, Dispatch.Send(k, Delivery.Confirmed));
    hide Dispatch.Perform;
    forall i | i in x'.state.log.newest
      ensures i in x.state.log.newest || (i in x.eventOf && x.eventOf[i] in x'.desk.log.entered)
    {
      assert i in x.state.log.newest.Keys + {j};
    }
    KnownFrame(x, x');
  }

  lemma KnownSubmit(dc: Dispatch.DispatcherConfig, c: Config, x: System, j: JobId, m: MessageId, owner: nat, now: Time)
    requires Known(x) && Can(x, SubmitJob(j, m, owner, now)) && j !in x.state.log.newest
    requires forall e :: e in x.jobOf ==> x.jobOf[e] != j && e != x.desk.nextEvent
    ensures Known(Do(dc, c, x, SubmitJob(j, m, owner, now)))
  {
    hide Enabled, Apply;
    SubmitNewest(c, x.state, j, m, owner);
    SubmitEntered(dc, x.desk, j, m, now);
  }

  lemma SubmitEntered(dc: Dispatch.DispatcherConfig, d: Dispatch.Desk, j: JobId, m: MessageId, now: Time)
    requires Dispatch.Allowed(d, Dispatch.Insert(j, m, now))
    ensures Dispatch.Perform(dc, d, Dispatch.Insert(j, m, now)).log.entered == d.log.entered
  {
  }

  // A job about to be submitted has no row and no message.
  lemma NewIdentity(c: Config, x: System, j: JobId)
    requires Inv(c, x.state) && Glue(x) && j !in x.state.jobs
    ensures j !in x.state.log.newest && forall e :: e in x.jobOf ==> x.jobOf[e] != j && e != x.desk.nextEvent
  {
    hide Inv;
    InvIds(c, x.state);
    NewestIsKnown(c, x.state, j);
  }

  lemma OutsideIsClean(c: Config, s: State, l: Label)
    requires l.Tick? || l.Submit? || (l.MainPublish? && l.j !in s.log.newest)
    ensures Clean(c, s, l)
  {
  }

  lemma StateMove(dc: Dispatch.DispatcherConfig, c: Config, x: System, m: Move)
    requires c.maxRetries <= MAX_SANE_ATTEMPT && Inv(c, x.state) && PoliteInv(x.state) && CleanInv(c, x.state)
    requires Known(x) && DeskClean(x.desk) && Can(x, m) && CleanMove(c, x, m)
    ensures PoliteInv(Do(dc, c, x, m).state) && CleanInv(c, Do(dc, c, x, m).state)
  {
    hide Inv, PoliteInv, CleanInv, DeskClean, Known, Enabled, Apply, Dispatch.Allowed, Dispatch.Perform, Clean, CleanAct;
    match m {
      case Clock(t) =>
        OutsideIsClean(c, x.state, Tick(t));
        StateClean(c, x.state, Tick(t));
      case SubmitJob(j, id, owner, now) =>
        OutsideIsClean(c, x.state, Submit(j, id, owner));
        StateClean(c, x.state, Submit(j, id, owner));
      case Post(k, p) =>
        FirstPost(dc, c, x, k);
        OutsideIsClean(c, x.state, MainPublish(x.jobOf[k.event]));
        StateClean(c, x.state, MainPublish(x.jobOf[k.event]));
      case PostLate(_) =>
      case Desk(a) =>
      case Work(l) => StateClean(c, x.state, l);
    }
  }

  lemma DeskMove(dc: Dispatch.DispatcherConfig, c: Config, x: System, m: Move)
    requires Dispatch.DeskOk(dc, x.desk) && DeskClean(x.desk) && Can(x, m) && CleanMove(c, x, m)
    ensures DeskClean(Do(dc, c, x, m).desk)
  {
    hide Dispatch.DeskOk, DeskClean, Enabled, Apply, Dispatch.Allowed, Dispatch.Perform, Clean;
    match m {
      case Clock(t) => DeskCleanStep(dc, x.desk, Dispatch.Pass(t));
      case SubmitJob(j, id, owner, now) => DeskCleanStep(dc, x.desk, Dispatch.Insert(j, id, now));
      case Post(k, p) => DeskCleanStep(dc, x.desk, Dispatch.Send(k, p));
      case PostLate(_) =>
      case Desk(a) => DeskCleanStep(dc, x.desk, a);
      case Work(l) =>
    }
  }

  lemma KnownMove(dc: Dispatch.DispatcherConfig, c: Config, x: System, m: Move)
    requires Inv(c, x.state) && Glue(x) && Known(x) && Can(x, m) && CleanMove(c, x, m)
    ensures Known(Do(dc, c, x, m))
  {
    hide Inv, Glue, Known, Enabled, Apply, Dispatch.Allowed, Dispatch.Perform, Polite, CleanAct;
    match m {
      case Clock(t) =>
        WorkNewest(c, x.state, Tick(t));
        DeskIdentity(dc, x.desk, Dispatch.Pass(t));
        SameKeys(x, Do(dc, c, x, m));
      case SubmitJob(j, id, owner, now) =>
        SubmitFresh(x.state, j, id, owner);
        NewIdentity(c, x, j);
        KnownSubmit(dc, c, x, j, id, owner, now);
      case Post(k, p) => KnownPost(dc, c, x, k);
      case PostLate(_) =>
      case Desk(a) =>
        DeskIdentity(dc, x.desk, a);
        SameKeys(x, Do(dc, c, x, m));
      case Work(l) =>
        WorkNewest(c, x.state, l);
        SameKeys(x, Do(dc, c, x, m));
    }
  }

  lemma SameKeys(x: System, x': System)
    requires Known(x) && x'.jobOf == x.jobOf && x'.eventOf == x.eventOf
    requires x.desk.log.entered <= x'.desk.log.entered && x'.state.log.newest.Keys == x.state.log.newest.Keys
    ensures Known(x')
  {
    assert forall j :: j in x'.state.log.newest ==> j in x.state.log.newest.Keys;
  }

  lemma CleanMoveKeeps(dc: Dispatch.DispatcherConfig, c: Config, x: System, m: Move)
    requires c.maxRetries <= MAX_SANE_ATTEMPT && CleanSystemInv(dc, c, x) && Can(x, m) && CleanMove(c, x, m)
    ensures CleanSystemInv(dc, c, Do(dc, c, x, m))
  {
    hide Can, Do, CleanMove, PoliteInv, CleanInv, DeskClean, Known, SystemInv, Inv, Glue, Dispatch.DeskOk;
    MoveKeeps(dc, c, x, m);
    SystemParts(dc, c, x);
    StateMove(dc, c, x, m);
    DeskMove(dc, c, x, m);
    KnownMove(dc, c, x, m);
  }

  lemma SubmitFresh(s: State, j: JobId, m: MessageId, owner: nat)
    requires Enabled(s, Submit(j, m, owner))
    ensures j !in s.jobs
  {
  }

  lemma SystemParts(dc: Dispatch.DispatcherConfig, c: Config, x: System)
    requires SystemInv(dc, c, x)
    ensures Inv(c, x.state) && Glue(x) && Dispatch.DeskOk(dc, x.desk)
  {
    hide Inv, Glue, Dispatch.DeskOk;
  }

  ghost predicate CleanMoves(dc: Dispatch.DispatcherConfig, c: Config, x: System, ms: seq<Move>, x': System)
    decreases |ms|
  {
    if ms == [] then x' == x
    else Can(x, ms[0]) && CleanMove(c, x, ms[0]) && CleanMoves(dc, c, Do(dc, c, x, ms[0]), ms[1..], x')
  }

  lemma {:induction false} CleanMovesKeep(dc: Dispatch.DispatcherConfig, c: Config, x: System, ms: seq<Move>, x': System)
    requires c.maxRetries <= MAX_SANE_ATTEMPT && CleanSystemInv(dc, c, x) && CleanMoves(dc, c, x, ms, x')
    ensures CleanSystemInv(dc, c, x')
    decreases |ms|
  {
    hide CleanSystemInv, Can, Do, CleanMove;
    if ms != [] {
      CleanMoveKeeps(dc, c, x, ms[0]);
      CleanMovesKeep(dc, c, Do(dc, c, x, ms[0]), ms[1..], x');
    }
  }

  ghost predicate CleanlyArises(dc: Dispatch.DispatcherConfig, c: Config, x: System) {
    exists ms :: CleanMoves(dc, c, Start(), ms, x)
  }

  lemma StartClean(dc: Dispatch.DispatcherConfig, c: Config)
    ensures CleanSystemInv(dc, c, Start())
  {
    hide Inv, PoliteInv, CleanInv;
    CleanInit(c);
  }

  lemma CleanlyArisesInv(dc: Dispatch.DispatcherConfig, c: Config, x: System)
    requires c.maxRetries <= MAX_SANE_ATTEMPT && CleanlyArises(dc, c, x)
    ensures CleanSystemInv(dc, c, x)
  {
    hide CleanSystemInv, CleanMoves;
    var ms :| CleanMoves(dc, c, Start(), ms, x);
    StartClean(dc, c);
    CleanMovesKeep(dc, c, Start(), ms, x);
  }

  // ---- results -------------------------------------------------------------

  datatype Carrier = OutboxRow(e: Outbox.EventId) | QueueMessage(q: Seq)

  // An unpublished row carries its job until its message enters, a message until it is handed over.
  predicate Carries(x: System, j: JobId, k: Carrier) {
    match k
    case OutboxRow(e) =>
      && e in x.desk.rows && e in x.jobOf && x.jobOf[e] == j
      && x.desk.rows[e].status != Outbox.Published && e !in x.desk.log.entered
    case QueueMessage(q) => q in x.state.inFlight && x.state.inFlight[q].msg.jobId == j && !HandedOver(x.state, q)
  }

  // The attempt the carrier stands for; an outbox row is published without a header.
  function CarriedAttempt(x: System, k: Carrier): nat {
    if k.QueueMessage? && k.q in x.state.inFlight then AttemptOf(x.state, k.q) else 0
  }

  ghost predicate SoleCarrier(x: System, j: JobId, k: Carrier)
    requires j in x.state.jobs
  {
    && Carries(x, j, k) && (forall l :: Carries(x, j, l) ==> l == k)
    && CarriedAttempt(x, k) == x.state.jobs[j].attemptCount + if Sending(x.state, j) then 1 else 0
  }

  lemma UnheardCount(c: Config, s: State, j: JobId)
    requires CleanInv(c, s) && Live(s, j) && Unheard(s, j)
    ensures s.jobs[j].attemptCount == 0 && !Sending(s, j)
  {
    assert CleanJob(c, s, j);
  }

  lemma RowWaits(dc: Dispatch.DispatcherConfig, x: System, j: JobId)
    requires Dispatch.DeskOk(dc, x.desk) && Glue(x) && j in x.state.ids && j !in x.state.log.newest
    ensures j in x.eventOf && Carries(x, j, OutboxRow(x.eventOf[j]))
  {
    var e := x.eventOf[j];
    assert e in x.desk.rows ==> Dispatch.EventOk(dc, x.desk, e, x.desk.rows[e]);
    hide Dispatch.EventOk, Dispatch.TicketOk;
    assert e in x.desk.rows ==> (x.desk.rows[e].status == Outbox.Published ==> e in x.desk.log.entered) by {
      PublishedEntered(dc, x.desk, e);
    }
  }

  lemma PublishedEntered(dc: Dispatch.DispatcherConfig, d: Dispatch.Desk, e: Outbox.EventId)
    requires e in d.rows ==> Dispatch.EventOk(dc, d, e, d.rows[e])
    ensures e in d.rows && d.rows[e].status == Outbox.Published ==> e in d.log.entered
  {
  }

  lemma OnlyRow(x: System, j: JobId)
    requires Known(x) && Unheard(x.state, j)
    ensures forall l :: Carries(x, j, l) ==> j in x.eventOf && l == OutboxRow(x.eventOf[j])
  {
  }

  lemma RowCarries(dc: Dispatch.DispatcherConfig, c: Config, x: System, j: JobId)
    requires CleanSystemInv(dc, c, x) && j in x.state.ids && Live(x.state, j) && j !in x.state.log.newest
    ensures j in x.eventOf && SoleCarrier(x, j, OutboxRow(x.eventOf[j]))
  {
    hide PoliteInv, CleanInv, DeskClean, Known, Glue, Dispatch.DeskOk, Unheard, Inv, Sending, Carries;
    UnheardBefore(c, x.state, j);
    UnheardCount(c, x.state, j);
    RowWaits(dc, x, j);
    OnlyRow(x, j);
  }

  lemma MessageCarries(dc: Dispatch.DispatcherConfig, c: Config, x: System, j: JobId)
    requires CleanSystemInv(dc, c, x) && Live(x.state, j) && j in x.state.log.newest
    ensures SoleCarrier(x, j, QueueMessage(x.state.log.newest[j]))
  {
    hide PoliteInv, CleanInv, DeskClean, Inv, Dispatch.DeskOk;
    NewestCarries(c, x.state, j);
    hide Sending;
    var q := x.state.log.newest[j];
    assert Carries(x, j, QueueMessage(q));
    forall l | Carries(x, j, l) ensures l == QueueMessage(q) {
    }
  }

  // From its commit to its terminal state a job has exactly one carrier, and the carrier's
  // attempt is the recorded one, or the next while a retry awaits its SetRetrying.
  lemma AlwaysOneCarrier(dc: Dispatch.DispatcherConfig, c: Config, x: System, j: JobId)
    requires c.maxRetries <= MAX_SANE_ATTEMPT && CleanlyArises(dc, c, x) && Live(x.state, j)
    ensures exists k :: SoleCarrier(x, j, k)
  {
    hide CleanlyArises, Carries;
    CleanlyArisesInv(dc, c, x);
    if j in x.state.log.newest {
      hide CleanSystemInv;
      MessageCarries(dc, c, x, j);
    } else {
      SystemParts(dc, c, x);
      InvIds(c, x.state);
      hide CleanSystemInv;
      RowCarries(dc, c, x, j);
    }
  }

  // An unpublished row whose message entered is held by the dispatcher that will mark it.
  lemma EnteredAwaitsMark(dc: Dispatch.DispatcherConfig, c: Config, x: System, e: Outbox.EventId)
    requires c.maxRetries <= MAX_SANE_ATTEMPT && CleanlyArises(dc, c, x)
    requires e in x.desk.rows && e in x.desk.log.entered && x.desk.rows[e].status != Outbox.Published
    ensures exists k :: k in x.desk.tickets && k.event == e && k.phase == Dispatch.Phase.Confirmed
              && x.desk.rows[e].leaseToken == Some(k.token)
  {
    hide CleanlyArises, SystemInv, PoliteInv, CleanInv, Known;
    CleanlyArisesInv(dc, c, x);
    assert Marking(x.desk, e);
  }
}
