// The outbox dispatchers and the delivery protocol together: a submission writes
// both tables at once, and a dispatcher's publish is what puts a job's first
// message on the main queue.
module WholeSystem {
  import opened Options
  import opened Messages
  import opened Delivery
  import opened DeliveryFrames
  import opened DeliverySafety
  import opened DeliveryTheorems
  import Outbox
  import Dispatch

  datatype System = System(
    desk: Dispatch.Desk,
    state: State,
    eventOf: map<JobId, Outbox.EventId>,     // the outbox row committed with the job
    jobOf: map<Outbox.EventId, JobId>)

  datatype Move =
    | Clock(t: Time)
    | SubmitJob(j: JobId, m: MessageId, owner: nat, now: Time)
    | Post(k: Dispatch.Ticket, p: Publish)   // a dispatcher's publish that reaches the queue
    | PostLate(k: Dispatch.Ticket)           // one that reaches it after the dispatcher gave up
    | Desk(a: Dispatch.Act)
    | Work(l: Label)

  predicate Can(x: System, m: Move) {
    match m
    case Clock(t) => Dispatch.Allowed(x.desk, Dispatch.Pass(t)) && Enabled(x.state, Tick(t))
    case SubmitJob(j, id, owner, now) =>
      Dispatch.Allowed(x.desk, Dispatch.Insert(j, id, now)) && Enabled(x.state, Submit(j, id, owner))
    case Post(k, p) =>
      && p != NotEntered && Dispatch.Allowed(x.desk, Dispatch.Send(k, p))
      && k.event in x.jobOf && Enabled(x.state, MainPublish(x.jobOf[k.event]))
    case PostLate(k) =>
      Dispatch.Allowed(x.desk, Dispatch.Surface(k)) && k.event in x.jobOf && Enabled(x.state, MainPublish(x.jobOf[k.event]))
    case Desk(a) =>
      !a.Surface? && !a.Pass? && !a.Insert? && (a.Send? ==> a.p == NotEntered) && Dispatch.Allowed(x.desk, a)
    case Work(l) => !l.Tick? && !l.Submit? && !l.MainPublish? && Enabled(x.state, l)
  }

  function Do(dc: Dispatch.DispatcherConfig, c: Config, x: System, m: Move): System
    requires Can(x, m)
  {
    match m
    case Clock(t) =>
      x.(desk := Dispatch.Perform(dc, x.desk, Dispatch.Pass(t)), state := Apply(c, x.state, Tick(t)))
    case SubmitJob(j, id, owner, now) =>
      x.(desk := Dispatch.Perform(dc, x.desk, Dispatch.Insert(j, id, now)),
         state := Apply(c, x.state, Submit(j, id, owner)),
         eventOf := x.eventOf[j := x.desk.nextEvent], jobOf := x.jobOf[x.desk.nextEvent := j])
    case Post(k, p) =>
      x.(desk := Dispatch.Perform(dc, x.desk, Dispatch.Send(k, p)),
         state := Apply(c, x.state, MainPublish(x.jobOf[k.event])))
    case PostLate(k) =>
      x.(desk := Dispatch.Perform(dc, x.desk, Dispatch.Surface(k)),
         state := Apply(c, x.state, MainPublish(x.jobOf[k.event])))
    case Desk(a) => x.(desk := Dispatch.Perform(dc, x.desk, a))
    case Work(l) => x.(state := Apply(c, x.state, l))
  }

  function Start(): System {
    System(Dispatch.EmptyDesk(), Init(), map[], map[])
  }

  predicate Moves(dc: Dispatch.DispatcherConfig, c: Config, x: System, ms: seq<Move>, x': System)
    decreases |ms|
  {
    if ms == [] then x' == x
    else Can(x, ms[0]) && Moves(dc, c, Do(dc, c, x, ms[0]), ms[1..], x')
  }

  ghost predicate Arises(dc: Dispatch.DispatcherConfig, c: Config, x: System) {
    exists ms :: Moves(dc, c, Start(), ms, x)
  }

  // ---- how the two halves hang together ------------------------------------

  // A row carries the identity of its job.
  predicate RowMatches(x: System, e: Outbox.EventId) {
    && e in x.jobOf && e in x.desk.rows && x.jobOf[e] in x.state.ids
    && x.desk.rows[e].jobId == x.jobOf[e] && x.desk.rows[e].messageId == x.state.ids[x.jobOf[e]]
  }

  ghost predicate Glue(x: System) {
    && (forall e :: e in x.jobOf <==> 0 <= e < x.desk.nextEvent)
    && (forall e :: e in x.jobOf ==> x.jobOf[e] in x.state.ids)
    && (forall j :: j in x.state.ids ==> j in x.eventOf && x.eventOf[j] in x.jobOf && x.jobOf[x.eventOf[j]] == j)
    && (forall e :: e in x.desk.rows ==> RowMatches(x, e))
    && (forall e :: e in x.desk.log.entered && e in x.jobOf ==> x.jobOf[e] in x.state.log.newest)
  }

  ghost predicate SystemInv(dc: Dispatch.DispatcherConfig, c: Config, x: System) {
    Dispatch.DeskOk(dc, x.desk) && Inv(c, x.state) && Glue(x)
  }

  // What a dispatcher's step does to the identity of rows.
  lemma DeskIdentity(dc: Dispatch.DispatcherConfig, d: Dispatch.Desk, a: Dispatch.Act)
    requires Dispatch.Allowed(d, a) && !a.Insert?
    ensures var d' := Dispatch.Perform(dc, d, a);
            && d'.nextEvent == d.nextEvent
            && (forall e :: e in d'.rows ==> e in d.rows && d'.rows[e].jobId == d.rows[e].jobId
                                             && d'.rows[e].messageId == d.rows[e].messageId)
            && d'.log.entered == if (a.Send? && a.p != NotEntered) || a.Surface? then d.log.entered + {a.k.event} else d.log.entered
  {
  }

  // A new job and a new row under fresh identifiers.
  ghost predicate Joined(x: System, x': System, j: JobId, m: MessageId, row: Outbox.OutboxEvent) {
    var e := x.desk.nextEvent;
    && x'.jobOf == x.jobOf[e := j] && x'.eventOf == x.eventOf[j := e]
    && x'.state.ids == x.state.ids[j := m] && x'.state.log.newest == x.state.log.newest
    && x'.desk.rows == x.desk.rows[e := row] && row.jobId == j && row.messageId == m
    && x'.desk.nextEvent == e + 1 && x'.desk.log.entered == x.desk.log.entered
  }

  lemma SubmitJoins(dc: Dispatch.DispatcherConfig, c: Config, x: System, j: JobId, m: MessageId, owner: nat, now: Time)
    requires Can(x, SubmitJob(j, m, owner, now))
    ensures Joined(x, Do(dc, c, x, SubmitJob(j, m, owner, now)), j, m, Outbox.NewOutboxEvent(j, m, now)) && j !in x.state.jobs
  {
  }

  lemma JoinedGlue(x: System, x': System, j: JobId, m: MessageId, row: Outbox.OutboxEvent)
    requires Glue(x) && Joined(x, x', j, m, row) && j !in x.state.ids
    requires forall e :: e in x.desk.log.entered ==> e < x.desk.nextEvent
    ensures Glue(x')
  {
    forall e | e in x'.desk.rows ensures RowMatches(x', e) {
      if e != x.desk.nextEvent {
        assert RowMatches(x, e);
      }
    }
  }

  lemma SubmitGlue(dc: Dispatch.DispatcherConfig, c: Config, x: System, j: JobId, m: MessageId, owner: nat, now: Time)
    requires Can(x, SubmitJob(j, m, owner, now)) && Glue(x) && x.state.ids.Keys == x.state.jobs.Keys
    requires Dispatch.DeskOk(dc, x.desk)
    ensures Glue(Do(dc, c, x, SubmitJob(j, m, owner, now)))
  {
    assert forall e :: e in x.desk.log.entered ==> e < x.desk.nextEvent;
    hide Glue, Joined, Do, Can, Dispatch.DeskOk;
    SubmitJoins(dc, c, x, j, m, owner, now);
    JoinedGlue(x, Do(dc, c, x, SubmitJob(j, m, owner, now)), j, m, Outbox.NewOutboxEvent(j, m, now));
  }

  // A step that keeps ids and only gains publications.
  lemma GlueFrame(x: System, x': System)
    requires Glue(x) && x'.jobOf == x.jobOf && x'.eventOf == x.eventOf && x'.state.ids == x.state.ids
    requires x'.desk.nextEvent == x.desk.nextEvent
    requires forall e :: e in x'.desk.rows ==> e in x.desk.rows && x'.desk.rows[e].jobId == x.desk.rows[e].jobId
                                               && x'.desk.rows[e].messageId == x.desk.rows[e].messageId
    requires forall j :: j in x.state.log.newest ==> j in x'.state.log.newest
    requires forall e :: e in x'.desk.log.entered && e in x.jobOf ==>
               e in x.desk.log.entered || x.jobOf[e] in x'.state.log.newest
    ensures Glue(x')
  {
    forall e | e in x'.desk.rows ensures RowMatches(x', e) {
      assert RowMatches(x, e);
    }
  }

  lemma WorkIds(c: Config, s: State, l: Label)
    requires Enabled(s, l) && !l.Submit?
    ensures Apply(c, s, l).ids == s.ids
  {
    hide Apply, Enabled, SameJobs, SameQueue, SameCache;
    StepFrame(c, s, l);
  }

  lemma PostedNewest(c: Config, s: State, j: JobId)
    requires Enabled(s, MainPublish(j))
    ensures j in Apply(c, s, MainPublish(j)).log.newest
  {
  }

  lemma InvIds(c: Config, s: State)
    requires Inv(c, s)
    ensures s.ids.Keys == s.jobs.Keys
  {
    hide Inv, Tokens, PmRows;
    InvTables(c, s);
  }

  lemma NewestGrows(s: State, s': State)
    requires Grows(s, s')
    ensures forall j :: j in s.log.newest ==> j in s'.log.newest
  {
  }

  lemma MoveKeeps(dc: Dispatch.DispatcherConfig, c: Config, x: System, m: Move)
    requires c.maxRetries <= MAX_SANE_ATTEMPT && SystemInv(dc, c, x) && Can(x, m)
    ensures SystemInv(dc, c, Do(dc, c, x, m))
  {
    hide Inv, Glue, Grows, Dispatch.DeskOk, Enabled, Apply, Dispatch.Allowed, Dispatch.Perform;
    var x' := Do(dc, c, x, m);
    match m {
      case Clock(t) =>
        Dispatch.DeskStep(dc, x.desk, Dispatch.Pass(t));
        StepKeeps(c, x.state, Tick(t));
        DeskIdentity(dc, x.desk, Dispatch.Pass(t));
        WorkIds(c, x.state, Tick(t));
        NewestGrows(x.state, x'.state);
        GlueFrame(x, x');
      case SubmitJob(j, id, owner, now) =>
        Dispatch.DeskStep(dc, x.desk, Dispatch.Insert(j, id, now));
        StepKeeps(c, x.state, Submit(j, id, owner));
        InvIds(c, x.state);
        SubmitGlue(dc, c, x, j, id, owner, now);
      case Post(k, p) =>
        Dispatch.DeskStep(dc, x.desk, Dispatch.Send(k, p));
        StepKeeps(c, x.state, MainPublish(x.jobOf[k.event]));
        DeskIdentity(dc, x.desk, Dispatch.Send(k, p));
        WorkIds(c, x.state, MainPublish(x.jobOf[k.event]));
        PostedNewest(c, x.state, x.jobOf[k.event]);
        NewestGrows(x.state, x'.state);
        GlueFrame(x, x');
      case PostLate(k) =>
        Dispatch.DeskStep(dc, x.desk, Dispatch.Surface(k));
        StepKeeps(c, x.state, MainPublish(x.jobOf[k.event]));
        DeskIdentity(dc, x.desk, Dispatch.Surface(k));
        WorkIds(c, x.state, MainPublish(x.jobOf[k.event]));
        PostedNewest(c, x.state, x.jobOf[k.event]);
        NewestGrows(x.state, x'.state);
        GlueFrame(x, x');
      case Desk(a) =>
        Dispatch.DeskStep(dc, x.desk, a);
        DeskIdentity(dc, x.desk, a);
        assert forall e :: e in x'.desk.log.entered ==> e in x.desk.log.entered;
        GlueFrame(x, x');
      case Work(l) =>
        StepKeeps(c, x.state, l);
        WorkIds(c, x.state, l);
        NewestGrows(x.state, x'.state);
        GlueFrame(x, x');
    }
  }

  lemma {:induction false} MovesKeep(dc: Dispatch.DispatcherConfig, c: Config, x: System, ms: seq<Move>, x': System)
    requires c.maxRetries <= MAX_SANE_ATTEMPT && SystemInv(dc, c, x) && Moves(dc, c, x, ms, x')
    ensures SystemInv(dc, c, x')
    decreases |ms|
  {
    hide SystemInv, Can, Do;
    if ms != [] {
      MoveKeeps(dc, c, x, ms[0]);
      MovesKeep(dc, c, Do(dc, c, x, ms[0]), ms[1..], x');
    }
  }

  // The outbox row of the job still waits to be published, with the job's identity.
  predicate Waiting(x: System, j: JobId) {
    && j in x.eventOf && x.eventOf[j] in x.desk.rows && j in x.state.ids
    && x.desk.rows[x.eventOf[j]].status != Outbox.Published
    && x.desk.rows[x.eventOf[j]].jobId == j && x.desk.rows[x.eventOf[j]].messageId == x.state.ids[j]
  }

  // No committed job is forgotten: it is terminal, or its outbox row is unpublished, or
  // its newest message is un-ACKed, or it was lost through the stale-attempt branch.
  lemma NothingForgotten(dc: Dispatch.DispatcherConfig, c: Config, x: System, j: JobId)
    requires c.maxRetries <= MAX_SANE_ATTEMPT && Arises(dc, c, x) && j in x.state.jobs
    ensures Terminal(x.state, j) || Waiting(x, j) || Carried(x.state, j) || (Lost(x.state, j) && j in x.state.log.stale)
  {
    hide Moves, Inv, Carried, Terminal, PmDone, Tokens, PmRows, Ids;
    var ms :| Moves(dc, c, Start(), ms, x);
    InitInv(c);
    MovesKeep(dc, c, Start(), ms, x);
    InvIds(c, x.state);
    InvCarriers(c, x.state);
    if PmDone(x.state, j) {
      DoneOrStale(c, x.state, j);
    }
    var e := x.eventOf[j];
    if e in x.desk.rows {
      assert RowMatches(x, e);
    }
  }

  lemma DoneOrStale(c: Config, s: State, j: JobId)
    requires Inv(c, s) && PmDone(s, j)
    ensures Terminal(s, j) || j in s.log.stale
  {
    hide Inv, Tokens;
    InvTables(c, s);
  }
}
