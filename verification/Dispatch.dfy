// The outbox dispatchers as a transition system: any number of dispatcher
// instances claim rows under a lease, publish with confirms, and mark or release
// them; an instance may stop between any two of those steps.
module Dispatch {
  import opened Options
  import opened Messages
  import opened Outbox
  import opened Backoff
  import opened Delivery

  datatype DispatcherConfig = DispatcherConfig(
    leaseTTL: nat, baseBackoff: int, maxBackoff: nat, outOfRange: int)

  // One claimed event in one dispatcher's hands, with the attempt count it read.
  datatype Phase = Held | Confirmed | Failed

  datatype Ticket = Ticket(event: EventId, token: Token, attempts: nat, phase: Phase)

  // History the code does not keep.
  datatype OutboxLog = OutboxLog(
    entered: set<EventId>,               // events whose message reached the main queue
    sends: map<EventId, nat>,            // how often it did
    claims: map<EventId, nat>,
    takeovers: map<EventId, nat>,        // claims of a row whose lease had expired
    releases: map<EventId, nat>,         // releases that changed the row
    lastWrite: map<EventId, Time>)       // when the row was last written

  datatype Desk = Desk(
    clock: Time, nextToken: Token, nextEvent: EventId, rows: EventTable, tickets: set<Ticket>,
    wire: set<Ticket>,                   // publishes given up on that may still enter
    log: OutboxLog)

  function EmptyDesk(): Desk {
    Desk(0, 0, 0, map[], {}, {}, OutboxLog({}, map[], map[], map[], map[], map[]))
  }

  datatype Act =
    | Pass(t: Time)
    | Insert(j: JobId, m: MessageId, now: Time)
    | ClaimDue(ids: set<EventId>, now: Time)
    | Send(k: Ticket, p: Publish)
    | Surface(k: Ticket)                 // a message enters after its publisher gave up
    | Mark(k: Ticket, at: Time)
    | Release(k: Ticket, now: Time)
    | Drop(k: Ticket)                    // crash, or the database write failed
    | Clean(ids: set<EventId>, before: Time)

  predicate Allowed(d: Desk, a: Act) {
    match a
    case Pass(t) => d.clock < t
    case Insert(_, _, now) => now <= d.clock
    case ClaimDue(ids, now) => now <= d.clock && forall i :: i in ids ==> i in d.rows && Due(d.rows[i], now)
    case Send(k, _) => k in d.tickets && k.phase == Held
    case Surface(k) => k in d.wire
    case Mark(k, _) => k in d.tickets && k.phase == Phase.Confirmed
    case Release(k, now) => k in d.tickets && k.phase != Phase.Confirmed && now <= d.clock
    case Drop(k) => k in d.tickets
    case Clean(ids, before) => forall i :: i in ids ==> i in d.rows && OldPublished(d.rows[i], before)
  }

  function Perform(c: DispatcherConfig, d: Desk, a: Act): Desk
    requires Allowed(d, a)
  {
    match a
    case Pass(t) => d.(clock := t)
    case Insert(j, m, now) =>
      d.(rows := d.rows[d.nextEvent := NewOutboxEvent(j, m, now)], nextEvent := d.nextEvent + 1,
         log := d.log.(sends := d.log.sends[d.nextEvent := 0], claims := d.log.claims[d.nextEvent := 0],
                       takeovers := d.log.takeovers[d.nextEvent := 0], releases := d.log.releases[d.nextEvent := 0],
                       lastWrite := d.log.lastWrite[d.nextEvent := d.clock]))
    case ClaimDue(ids, now) => AfterClaimDue(c, d, ids, now)
    case Send(k, p) =>
      d.(tickets := d.tickets - {k} + {k.(phase := if p == Publish.Confirmed then Phase.Confirmed else Failed)},
         wire := if p == NotEntered then d.wire + {k} else d.wire,
         log := if p == NotEntered then d.log else Entering(d.log, k.event))
    case Surface(k) => d.(wire := d.wire - {k}, log := Entering(d.log, k.event))
    case Mark(k, at) =>
      Written(d, MarkedPublished(d.rows, k.event, k.token, at), k)
    case Release(k, now) => AfterRelease(c, d, k, now)
    case Drop(k) => d.(tickets := d.tickets - {k})
    case Clean(ids, _) => d.(rows := d.rows - ids)
  }

  function AfterClaimDue(c: DispatcherConfig, d: Desk, ids: set<EventId>, now: Time): Desk
    requires forall i :: i in ids ==> i in d.rows
  {
    d.(rows := Claimed(d.rows, ids, d.nextToken, now + c.leaseTTL),
       nextToken := d.nextToken + 1,
       tickets := d.tickets + set i | i in ids :: Ticket(i, d.nextToken, d.rows[i].attemptCount, Held),
       log := d.log.(lastWrite := map i | i in d.log.lastWrite :: if i in ids then d.clock else d.log.lastWrite[i],
                     claims := map i | i in d.log.claims :: d.log.claims[i] + if i in ids then 1 else 0,
                     takeovers := map i | i in d.log.takeovers ::
                       d.log.takeovers[i] + if i in ids && d.rows[i].status == Publishing then 1 else 0))
  }

  function Entering(log: OutboxLog, i: EventId): OutboxLog {
    log.(entered := log.entered + {i}, sends := log.sends[i := (if i in log.sends then log.sends[i] else 0) + 1])
  }

  // The ticket is given up; the write counts where it changed the row.
  function Written(d: Desk, after: EventTable, k: Ticket): Desk {
    d.(rows := after, tickets := d.tickets - {k},
       log := if after == d.rows then d.log else d.log.(lastWrite := d.log.lastWrite[k.event := d.clock]))
  }

  // releaseEvent: one more than the count this dispatcher read, and the backoff for it.
  function AfterRelease(c: DispatcherConfig, d: Desk, k: Ticket, now: Time): Desk {
    var wait := BackoffFor(c.baseBackoff, c.maxBackoff, k.attempts + 1, c.outOfRange);
    var after := Released(d.rows, k.event, k.token, k.attempts + 1, now + wait);
    var d' := Written(d, after, k);
    if k.event in d.rows && d.rows[k.event].leaseToken == Some(k.token) && k.event in d.log.releases
    then d'.(log := d'.log.(releases := d'.log.releases[k.event := d.log.releases[k.event] + 1]))
    else d'
  }

  predicate Runs(c: DispatcherConfig, d: Desk, acts: seq<Act>, d': Desk)
    decreases |acts|
  {
    if acts == [] then d' == d
    else Allowed(d, acts[0]) && Runs(c, Perform(c, d, acts[0]), acts[1..], d')
  }

  // ---- the invariant -------------------------------------------------------

  // A row has a lease exactly while it is publishing.
  predicate LeaseOk(e: OutboxEvent) {
    && (e.leaseToken.Some? <==> e.status == Publishing)
    && (e.leaseExpiresAt.Some? <==> e.status == Publishing)
    && (e.publishedAt.Some? <==> e.status == Published)
  }

  function Patience(c: DispatcherConfig): nat {
    if c.leaseTTL <= c.maxBackoff then c.maxBackoff else c.leaseTTL
  }

  predicate EventOk(c: DispatcherConfig, d: Desk, i: EventId, e: OutboxEvent) {
    && i < d.nextEvent && LeaseOk(e)
    && (e.leaseToken.Some? ==> e.leaseToken.value < d.nextToken)
    && i in d.log.releases && e.attemptCount == d.log.releases[i] && i in d.log.takeovers
    && (e.status == Published ==> i in d.log.entered)
    && i in d.log.lastWrite && d.log.lastWrite[i] <= d.clock
    && (e.status == Pending ==> e.nextRetryAt <= d.log.lastWrite[i] + c.maxBackoff)
    && (e.status == Publishing ==> e.leaseExpiresAt.value <= d.log.lastWrite[i] + c.leaseTTL)
  }

  predicate TicketOk(d: Desk, k: Ticket) {
    && k.event < d.nextEvent && k.token < d.nextToken
    && (k.phase == Phase.Confirmed ==> k.event in d.log.entered)
    && (k.event in d.rows && d.rows[k.event].leaseToken == Some(k.token) ==> d.rows[k.event].attemptCount == k.attempts)
  }

  ghost predicate DeskOk(c: DispatcherConfig, d: Desk) {
    && (forall i :: i in d.rows ==> EventOk(c, d, i, d.rows[i]))
    && (forall k :: k in d.tickets ==> TicketOk(d, k))
    && (forall i :: i in d.log.entered ==> i < d.nextEvent) && (forall k :: k in d.wire ==> k.event < d.nextEvent)
    && (forall i :: 0 <= i < d.nextEvent && i !in d.rows ==> i in d.log.entered)
  }

  lemma InsertKeeps(c: DispatcherConfig, d: Desk, a: Act)
    requires DeskOk(c, d) && Allowed(d, a) && (a.Insert? || a.Pass? || a.Drop?)
    ensures DeskOk(c, Perform(c, d, a))
  {
  }

  lemma ClaimDueKeeps(c: DispatcherConfig, d: Desk, a: Act)
    requires DeskOk(c, d) && Allowed(d, a) && a.ClaimDue?
    ensures DeskOk(c, Perform(c, d, a))
  {
  }

  lemma SendKeeps(c: DispatcherConfig, d: Desk, a: Act)
    requires DeskOk(c, d) && Allowed(d, a) && (a.Send? || a.Surface?)
    ensures DeskOk(c, Perform(c, d, a))
  {
  }

  lemma MarkKeeps(c: DispatcherConfig, d: Desk, a: Act)
    requires DeskOk(c, d) && Allowed(d, a) && a.Mark?
    ensures DeskOk(c, Perform(c, d, a))
  {
  }

  lemma ReleaseKeeps(c: DispatcherConfig, d: Desk, a: Act)
    requires DeskOk(c, d) && Allowed(d, a) && a.Release?
    ensures DeskOk(c, Perform(c, d, a))
  {
    hide BackoffFor;
  }

  lemma CleanKeeps(c: DispatcherConfig, d: Desk, a: Act)
    requires DeskOk(c, d) && Allowed(d, a) && a.Clean?
    ensures DeskOk(c, Perform(c, d, a))
  {
  }

  lemma DeskStep(c: DispatcherConfig, d: Desk, a: Act)
    requires DeskOk(c, d) && Allowed(d, a)
    ensures DeskOk(c, Perform(c, d, a))
  {
    hide DeskOk, Allowed, Perform;
    match a {
      case ClaimDue(_, _) => ClaimDueKeeps(c, d, a);
      case Send(_, _) => SendKeeps(c, d, a);
      case Surface(_) => SendKeeps(c, d, a);
      case Mark(_, _) => MarkKeeps(c, d, a);
      case Release(_, _) => ReleaseKeeps(c, d, a);
      case Clean(_, _) => CleanKeeps(c, d, a);
      case _ => InsertKeeps(c, d, a);
    }
  }

  lemma {:induction false} RunsKeep(c: DispatcherConfig, d: Desk, acts: seq<Act>, d': Desk)
    requires DeskOk(c, d) && Runs(c, d, acts, d')
    ensures DeskOk(c, d')
    decreases |acts|
  {
    hide DeskOk, Allowed, Perform;
    if acts != [] {
      DeskStep(c, d, acts[0]);
      RunsKeep(c, Perform(c, d, acts[0]), acts[1..], d');
    }
  }

  ghost predicate Possible(c: DispatcherConfig, d: Desk) {
    exists acts :: Runs(c, EmptyDesk(), acts, d)
  }

  lemma PossibleOk(c: DispatcherConfig, d: Desk)
    requires Possible(c, d)
    ensures DeskOk(c, d)
  {
    hide Runs;
    var acts :| Runs(c, EmptyDesk(), acts, d);
    RunsKeep(c, EmptyDesk(), acts, d);
  }

  // ---- guarantees ----------------------------------------------------------

  // A lease token stands in a row exactly while the row is publishing, so the
  // release without a status guard can never touch a published row.
  lemma ReleaseOnlyPublishing(c: DispatcherConfig, d: Desk, k: Ticket, now: Time, i: EventId)
    requires Possible(c, d) && Allowed(d, Release(k, now)) && i in d.rows
    ensures d.rows[i].leaseToken.Some? <==> d.rows[i].status == Publishing
    ensures d.rows[i].status != Publishing ==>
              i in Perform(c, d, Release(k, now)).rows && Perform(c, d, Release(k, now)).rows[i] == d.rows[i]
  {
    hide Possible, BackoffFor;
    PossibleOk(c, d);
  }

  // Every published row had its message enter the main queue, and the counter of a row
  // is the number of releases that took effect on it: no update is lost.
  lemma CounterIsExact(c: DispatcherConfig, d: Desk, i: EventId)
    requires Possible(c, d) && i in d.rows
    ensures i in d.log.releases && d.rows[i].attemptCount == d.log.releases[i]
    ensures d.rows[i].status == Published ==> i in d.log.entered
  {
    hide Possible;
    PossibleOk(c, d);
  }

  // No event is stranded: an unpublished row can be claimed at the latest
  // max(leaseTTL, maxBackoff) after its last write.
  lemma NeverStranded(c: DispatcherConfig, d: Desk, i: EventId, now: Time)
    requires Possible(c, d) && i in d.rows && d.rows[i].status != Published
    ensures i in d.log.lastWrite && (d.log.lastWrite[i] + Patience(c) <= now ==> Due(d.rows[i], now))
  {
    hide Possible;
    PossibleOk(c, d);
  }

  lemma FrozenStep(c: DispatcherConfig, d: Desk, a: Act, i: EventId)
    requires DeskOk(c, d) && Allowed(d, a) && i < d.nextEvent
    ensures i < Perform(c, d, a).nextEvent && d.log.entered <= Perform(c, d, a).log.entered
    ensures i in Perform(c, d, a).rows ==>
              i in d.rows && (d.rows[i].status == Published ==> Perform(c, d, a).rows[i] == d.rows[i])
    ensures i in d.rows && i !in Perform(c, d, a).rows ==> a.Clean? && d.rows[i].status == Published
  {
    hide BackoffFor;
  }

  // Published rows stay as they are until they are deleted, deleted rows do not come
  // back, and an event that is gone had its message enter the main queue.
  lemma {:induction false} PublishedStays(c: DispatcherConfig, d: Desk, acts: seq<Act>, d': Desk, i: EventId)
    requires DeskOk(c, d) && Runs(c, d, acts, d') && i < d.nextEvent
    ensures i in d'.rows ==> i in d.rows && (d.rows[i].status == Published ==> d'.rows[i] == d.rows[i])
    ensures i !in d'.rows ==> i in d'.log.entered
    ensures d.log.entered <= d'.log.entered
    decreases |acts|
  {
    hide Allowed, Perform;
    if acts != [] {
      var e := Perform(c, d, acts[0]);
      FrozenStep(c, d, acts[0], i);
      DeskStep(c, d, acts[0]);
      hide DeskOk;
      PublishedStays(c, e, acts[1..], d', i);
    }
  }

  // A ticket whose lease was taken over or given back.
  predicate Stale(d: Desk, k: Ticket) {
    k.token < d.nextToken && (k.event in d.rows ==> d.rows[k.event].leaseToken != Some(k.token)) && k.event < d.nextEvent
  }

  lemma StaleStep(c: DispatcherConfig, d: Desk, a: Act, k: Ticket)
    requires Allowed(d, a) && Stale(d, k)
    ensures Stale(Perform(c, d, a), k)
    ensures (a.Mark? || a.Release?) && a.k.event == k.event && a.k.token == k.token ==> Perform(c, d, a).rows == d.rows
  {
    hide BackoffFor;
  }

  // Whatever its holder does later changes no row.
  lemma {:induction false} StaleForever(c: DispatcherConfig, d: Desk, acts: seq<Act>, d': Desk, k: Ticket)
    requires Runs(c, d, acts, d') && Stale(d, k)
    ensures Stale(d', k)
    ensures forall at :: MarkedPublished(d'.rows, k.event, k.token, at) == d'.rows
    ensures forall n, at :: Released(d'.rows, k.event, k.token, n, at) == d'.rows
    decreases |acts|
  {
    hide Allowed, Perform;
    if acts != [] {
      StaleStep(c, d, acts[0], k);
      hide Stale;
      StaleForever(c, Perform(c, d, acts[0]), acts[1..], d', k);
    }
  }

  // A claim leaves every unexpired lease alone, and fences off every earlier ticket of
  // the rows it takes.
  lemma ClaimTakesOnlyExpired(c: DispatcherConfig, d: Desk, ids: set<EventId>, now: Time, i: EventId, k: Ticket)
    requires Possible(c, d) && Allowed(d, ClaimDue(ids, now)) && i in d.rows && k in d.tickets
    ensures d.rows[i].leaseExpiresAt.Some? && d.clock < d.rows[i].leaseExpiresAt.value ==>
              i in Perform(c, d, ClaimDue(ids, now)).rows && Perform(c, d, ClaimDue(ids, now)).rows[i] == d.rows[i]
    ensures k.event in ids ==> Stale(Perform(c, d, ClaimDue(ids, now)), k)
  {
    hide Possible;
    PossibleOk(c, d);
  }

  ghost predicate Reaches(c: DispatcherConfig, d: Desk, d': Desk) {
    exists acts :: Runs(c, d, acts, d')
  }

  lemma {:induction false} RunsThenStep(c: DispatcherConfig, d: Desk, acts: seq<Act>, d': Desk, a: Act)
    requires Runs(c, d, acts, d') && Allowed(d', a)
    ensures Runs(c, d, acts + [a], Perform(c, d', a))
    decreases |acts|
  {
    hide Allowed, Perform;
    if acts == [] {
      assert Runs(c, Perform(c, d, a), [], Perform(c, d, a));
    } else {
      RunsThenStep(c, Perform(c, d, acts[0]), acts[1..], d', a);
      assert (acts + [a])[1..] == acts[1..] + [a];
    }
  }

  lemma ReachesThenStep(c: DispatcherConfig, d: Desk, d': Desk, a: Act)
    requires Reaches(c, d, d') && Allowed(d', a)
    ensures Reaches(c, d, Perform(c, d', a))
  {
    hide Allowed, Perform, Runs;
    var acts :| Runs(c, d, acts, d');
    RunsThenStep(c, d, acts, d', a);
  }
}
