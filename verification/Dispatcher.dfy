// Dispatcher.runOnce of internal/queryjob/dispatcher.go over the outbox
// repository, interleaved with any steps of other dispatchers and clients.
module Dispatchers {
  import opened Options
  import opened Messages
  import opened Outbox
  import opened Backoff
  import opened Dispatch
  import Delivery

  predicate Uses(a: Act, token: Token) {
    (a.Send? || a.Mark? || a.Release? || a.Drop?) && a.k.token == token
  }

  // What steps of others do to the holder of a lease: nothing to its tickets, and no
  // row gets its lease.
  ghost predicate Spared(d: Desk, d': Desk, token: Token) {
    && token < d'.nextToken && d.clock <= d'.clock
    && (forall k: Ticket :: k.token == token ==> (k in d'.tickets <==> k in d.tickets))
    && (forall i :: i in d'.rows && d'.rows[i].leaseToken == Some(token) ==>
          i in d.rows && d.rows[i].leaseToken == Some(token))
  }

  lemma OtherStep(c: DispatcherConfig, d: Desk, a: Act, token: Token)
    requires Allowed(d, a) && !Uses(a, token) && token < d.nextToken
    ensures Spared(d, Perform(c, d, a), token)
  {
    hide BackoffFor;
  }

  function TicketFor(e: (EventId, OutboxEvent), token: Token, phase: Phase): Ticket {
    Ticket(e.0, token, e.1.attemptCount, phase)
  }

  // What this cycle still has in hand under its lease: the ticket cur it is working on and
  // those of todo from k on. A row keeps the lease only while its ticket is open, or where
  // a write failed.
  ghost predicate Owes(d: Desk, token: Token, todo: seq<(EventId, OutboxEvent)>, k: nat, cur: Option<Ticket>,
                       dropped: set<EventId>)
    requires k <= |todo|
  {
    && token < d.nextToken
    && (forall x :: x in d.tickets && x.token == token ==>
          cur == Some(x) || exists l :: k <= l < |todo| && x == TicketFor(todo[l], token, Held))
    && (forall l :: k <= l < |todo| ==>
          TicketFor(todo[l], token, Held) in d.tickets && (cur.Some? ==> cur.value.event != todo[l].0))
    && (cur.Some? ==> cur.value in d.tickets && cur.value.token == token)
    && (forall i :: i in d.rows && d.rows[i].leaseToken == Some(token) ==>
          || i in dropped || (cur.Some? && cur.value.event == i)
          || exists l :: k <= l < |todo| && todo[l].0 == i)
  }

  lemma SparedOwes(d: Desk, d': Desk, token: Token, todo: seq<(EventId, OutboxEvent)>, k: nat, cur: Option<Ticket>,
                   dropped: set<EventId>)
    requires k <= |todo| && Owes(d, token, todo, k, cur, dropped) && Spared(d, d', token)
    ensures Owes(d', token, todo, k, cur, dropped)
  {
  }

  // Right after the claim.
  lemma ClaimOwes(c: DispatcherConfig, d: Desk, events: seq<(EventId, OutboxEvent)>, now: Time)
    requires DeskOk(c, d) && Allowed(d, ClaimDue(Ids(events), now))
    requires var d' := Perform(c, d, ClaimDue(Ids(events), now));
             forall k :: 0 <= k < |events| ==> events[k].0 in d'.rows && events[k].1 == d'.rows[events[k].0]
    ensures Owes(Perform(c, d, ClaimDue(Ids(events), now)), d.nextToken, events, 0, None, {})
  {
    var d' := Perform(c, d, ClaimDue(Ids(events), now));
    forall x | x in d'.tickets && x.token == d.nextToken
      ensures exists l :: 0 <= l < |events| && x == TicketFor(events[l], d.nextToken, Held)
    {
      assert x.event in Ids(events);
      var l :| 0 <= l < |events| && events[l].0 == x.event;
      assert x == TicketFor(events[l], d.nextToken, Held);
    }
    forall l | 0 <= l < |events| ensures TicketFor(events[l], d.nextToken, Held) in d'.tickets {
      assert events[l].0 in Ids(events);
    }
  }

  lemma TakeOwes(d: Desk, token: Token, todo: seq<(EventId, OutboxEvent)>, k: nat, dropped: set<EventId>)
    requires k < |todo| && Distinct(todo) && Owes(d, token, todo, k, None, dropped)
    ensures Owes(d, token, todo, k + 1, Some(TicketFor(todo[k], token, Held)), dropped)
  {
  }

  lemma SendOwes(c: DispatcherConfig, d: Desk, token: Token, todo: seq<(EventId, OutboxEvent)>, k: nat, x: Ticket,
                 dropped: set<EventId>, p: Delivery.Publish)
    requires k <= |todo| && Owes(d, token, todo, k, Some(x), dropped) && Allowed(d, Send(x, p))
    ensures var x' := x.(phase := if p == Delivery.Confirmed then Phase.Confirmed else Failed);
            Owes(Perform(c, d, Send(x, p)), token, todo, k, Some(x'), dropped)
  {
  }

  // A ticket is settled by a mark, a release or a failed write.
  lemma SettleOwes(c: DispatcherConfig, d: Desk, token: Token, todo: seq<(EventId, OutboxEvent)>, k: nat, x: Ticket,
                   dropped: set<EventId>, a: Act)
    requires k <= |todo| && Owes(d, token, todo, k, Some(x), dropped) && DeskOk(c, d)
    requires Allowed(d, a) && (a.Mark? || a.Release? || a.Drop?) && a.k == x
    ensures Owes(Perform(c, d, a), token, todo, k, None, if a.Drop? then dropped + {x.event} else dropped)
  {
    hide BackoffFor;
  }

  // What the steps of a cycle write.
  lemma SendClock(c: DispatcherConfig, d: Desk, x: Ticket, p: Delivery.Publish)
    requires Allowed(d, Send(x, p))
    ensures var d' := Perform(c, d, Send(x, p));
            d'.rows == d.rows && d'.clock == d.clock && d'.nextToken == d.nextToken
  {
  }

  lemma SettleRows(c: DispatcherConfig, d: Desk, x: Ticket, now: Time)
    requires x in d.tickets
    ensures x.phase == Phase.Confirmed ==>
              var d' := Perform(c, d, Mark(x, now));
              d'.rows == MarkedPublished(d.rows, x.event, x.token, now) && d'.clock == d.clock
              && d'.nextToken == d.nextToken && d'.log.entered == d.log.entered
    ensures x.phase != Phase.Confirmed && now <= d.clock ==>
              var d' := Perform(c, d, Release(x, now));
              var wait := BackoffFor(c.baseBackoff, c.maxBackoff, x.attempts + 1, c.outOfRange);
              d'.rows == Released(d.rows, x.event, x.token, x.attempts + 1, now + wait) && d'.clock == d.clock
              && d'.nextToken == d.nextToken
    ensures var d' := Perform(c, d, Drop(x));
            d'.rows == d.rows && d'.clock == d.clock && d'.nextToken == d.nextToken && d'.log.entered == d.log.entered
  {
    hide BackoffFor;
  }

  lemma OwesCurrent(c: DispatcherConfig, d: Desk, token: Token, todo: seq<(EventId, OutboxEvent)>, k: nat, x: Ticket,
                    dropped: set<EventId>)
    requires k <= |todo| && Owes(d, token, todo, k, Some(x), dropped) && DeskOk(c, d)
    ensures x in d.tickets && x.token == token && token < d.nextToken && (x.phase == Phase.Confirmed ==> x.event in d.log.entered)
  {
  }

  // ---- what becomes of the claimed events ----------------------------------

  // One cycle: the desk right after its claim, the claimed events, those whose publish is
  // confirmed, and those whose mark or release fails to be written.
  datatype Cycle = Cycle(base: Desk, token: Token, todo: seq<(EventId, OutboxEvent)>, good: set<EventId>,
                         failing: set<EventId>)

  // Somebody claimed the row after its lease ran out.
  predicate LostSince(base: Desk, d: Desk, i: EventId) {
    i in base.log.takeovers && i in d.log.takeovers && base.log.takeovers[i] < d.log.takeovers[i]
  }

  predicate Counted(base: Desk, d: Desk, i: EventId) {
    && i < d.nextEvent
    && i in base.log.takeovers && i in d.log.takeovers && base.log.takeovers[i] <= d.log.takeovers[i]
    && i in base.log.releases && i in d.log.releases && base.log.releases[i] <= d.log.releases[i]
  }

  predicate Waits(y: Cycle, d: Desk, i: EventId) {
    && Counted(y.base, d, i)
    && (LostSince(y.base, d, i) || (i in d.rows && d.rows[i].leaseToken == Some(y.token)))
  }

  predicate Handled(y: Cycle, d: Desk, i: EventId) {
    && Counted(y.base, d, i)
    && (i in y.good ==>
          && i in d.log.entered
          && (i in y.failing || LostSince(y.base, d, i) || i !in d.rows || d.rows[i].status == Published))
    && (i !in y.good ==>
          i in y.failing || LostSince(y.base, d, i) || y.base.log.releases[i] < d.log.releases[i])
  }

  ghost predicate Tracked(y: Cycle, d: Desk, k: nat) {
    && k <= |y.todo|
    && (forall l :: 0 <= l < k ==> Handled(y, d, y.todo[l].0))
    && (forall l :: k <= l < |y.todo| ==> Waits(y, d, y.todo[l].0))
  }

  lemma WaitsStep(c: DispatcherConfig, y: Cycle, d: Desk, a: Act, i: EventId)
    requires DeskOk(c, d) && Allowed(d, a) && Waits(y, d, i) && y.token < d.nextToken
    requires (a.Mark? || a.Release?) && a.k.token == y.token ==> a.k.event != i
    ensures Waits(y, Perform(c, d, a), i)
  {
    hide BackoffFor;
  }

  lemma HandledStep(c: DispatcherConfig, y: Cycle, d: Desk, a: Act, i: EventId)
    requires DeskOk(c, d) && Allowed(d, a) && Handled(y, d, i)
    ensures Handled(y, Perform(c, d, a), i)
  {
    hide BackoffFor;
  }

  lemma TrackedStep(c: DispatcherConfig, y: Cycle, d: Desk, a: Act, k: nat)
    requires DeskOk(c, d) && Allowed(d, a) && Tracked(y, d, k) && y.token < d.nextToken
    requires a.Mark? || a.Release? ==> a.k.token != y.token
    ensures Tracked(y, Perform(c, d, a), k)
  {
    hide DeskOk, Allowed, Perform, Waits, Handled;
    forall l | 0 <= l < k ensures Handled(y, Perform(c, d, a), y.todo[l].0) {
      HandledStep(c, y, d, a, y.todo[l].0);
    }
    forall l | k <= l < |y.todo| ensures Waits(y, Perform(c, d, a), y.todo[l].0) {
      WaitsStep(c, y, d, a, y.todo[l].0);
    }
  }

  // The event of the ticket is marked, released or left to its lease.
  lemma SettledIsHandled(c: DispatcherConfig, y: Cycle, d: Desk, a: Act, i: EventId)
    requires DeskOk(c, d) && Allowed(d, a) && Waits(y, d, i)
    requires (a.Mark? || a.Release? || a.Drop?) && a.k.token == y.token && a.k.event == i
    requires a.Drop? <==> i in y.failing
    requires a.k.phase == Phase.Confirmed <==> i in y.good
    ensures Handled(y, Perform(c, d, a), i)
  {
    hide BackoffFor;
  }

  lemma SettleTracks(c: DispatcherConfig, y: Cycle, d: Desk, a: Act, k: nat)
    requires DeskOk(c, d) && Allowed(d, a) && k < |y.todo| && Distinct(y.todo) && Tracked(y, d, k) && y.token < d.nextToken
    requires (a.Mark? || a.Release? || a.Drop?) && a.k.token == y.token && a.k.event == y.todo[k].0
    requires a.Drop? <==> y.todo[k].0 in y.failing
    requires a.k.phase == Phase.Confirmed <==> y.todo[k].0 in y.good
    ensures Tracked(y, Perform(c, d, a), k + 1)
  {
    hide DeskOk, Allowed, Perform, Waits, Handled;
    forall l | 0 <= l < k + 1 ensures Handled(y, Perform(c, d, a), y.todo[l].0) {
      if l < k {
        HandledStep(c, y, d, a, y.todo[l].0);
      } else {
        SettledIsHandled(c, y, d, a, y.todo[l].0);
      }
    }
    forall l | k + 1 <= l < |y.todo| ensures Waits(y, Perform(c, d, a), y.todo[l].0) {
      WaitsStep(c, y, d, a, y.todo[l].0);
    }
  }

  lemma ClaimTracks(c: DispatcherConfig, d: Desk, y: Cycle, now: Time)
    requires DeskOk(c, d) && Allowed(d, ClaimDue(Ids(y.todo), now))
    requires y.base == Perform(c, d, ClaimDue(Ids(y.todo), now)) && y.token == d.nextToken
    ensures Tracked(y, y.base, 0)
  {
    forall l | 0 <= l < |y.todo| ensures Waits(y, y.base, y.todo[l].0) {
      assert y.todo[l].0 in Ids(y.todo);
    }
  }

  lemma CleanTracks(y: Cycle, d: Desk, d': Desk, k: nat)
    requires Tracked(y, d, k) && k == |y.todo| && d' == d.(rows := d'.rows) && d'.rows.Keys <= d.rows.Keys
    requires forall i :: i in d'.rows ==> d'.rows[i] == d.rows[i]
    ensures Tracked(y, d', k)
  {
  }

  lemma TrackedEntered(y: Cycle, d: Desk, k: nat)
    requires Tracked(y, d, k + 1)
    ensures y.todo[k].0 in y.good ==> y.todo[k].0 in d.log.entered
  {
  }

  lemma OthersKeep(c: DispatcherConfig, d: Desk, a: Act, y: Cycle, n: nat, k: nat, cur: Option<Ticket>,
                   dropped: set<EventId>)
    requires DeskOk(c, d) && Allowed(d, a) && !Uses(a, y.token)
    requires k <= |y.todo| && Owes(d, y.token, y.todo, k, cur, dropped) && Tracked(y, d, n)
    ensures var d' := Perform(c, d, a);
            Owes(d', y.token, y.todo, k, cur, dropped) && Tracked(y, d', n) && d.clock <= d'.clock
  {
    assert y.token < d.nextToken;
    hide Owes, Tracked, DeskOk, Allowed, Perform;
    OtherStep(c, d, a, y.token);
    SparedOwes(d, Perform(c, d, a), y.token, y.todo, k, cur, dropped);
    TrackedStep(c, y, d, a, n);
  }

  // Which rows a claim takes: due ones that nobody has locked, and all of them if they fit.
  ghost predicate Selected(t: EventTable, ids: set<EventId>, batchSize: nat, now: Time, locked: set<EventId>) {
    && |ids| <= batchSize
    && (forall i :: i in ids ==> i in t && i !in locked)
    && (forall i :: i in t && i !in locked && (i in ids || |ids| < batchSize) ==>
          (i in ids <==>
             || (t[i].status == Pending && t[i].nextRetryAt <= now)
             || (t[i].status == Publishing && t[i].leaseExpiresAt.Some? && t[i].leaseExpiresAt.value <= now)))
  }

  lemma DueSelected(t: EventTable, ids: set<EventId>, batchSize: nat, now: Time, locked: set<EventId>)
    requires |ids| <= batchSize && forall i :: i in ids ==> i in t && Due(t[i], now) && i !in locked
    requires |ids| < batchSize ==> forall i :: i in t && Due(t[i], now) && i !in locked ==> i in ids
    ensures Selected(t, ids, batchSize, now, locked)
  {
  }

  lemma IdsCount(events: seq<(EventId, OutboxEvent)>)
    requires Distinct(events)
    ensures |Ids(events)| == |events|
    decreases |events|
  {
    if |events| > 0 {
      var n := |events| - 1;
      assert events[..n] + [events[n]] == events;
      IdsCount(events[..n]);
      assert Ids(events) == Ids(events[..n]) + {events[n].0};
    }
  }

  lemma ClaimWrites(c: DispatcherConfig, d: Desk, ids: set<EventId>, now: Time)
    requires forall i :: i in ids ==> i in d.rows
    requires Allowed(d, ClaimDue(ids, now))
    ensures var d' := Perform(c, d, ClaimDue(ids, now));
            d'.rows == Claimed(d.rows, ids, d.nextToken, now + c.leaseTTL) && d'.nextToken == d.nextToken + 1
            && d'.clock == d.clock
  {
  }

  lemma CleanWrites(c: DispatcherConfig, d: Desk, ids: set<EventId>, before: Time)
    requires Allowed(d, Clean(ids, before))
    ensures Perform(c, d, Clean(ids, before)) == d.(rows := d.rows - ids)
  {
  }

  // What became of an event claimed in a cycle that began at desk d and ended at desk d';
  // the claim itself takes over a row that was publishing.
  predicate Outcome(d: Desk, d': Desk, i: EventId, confirmed: bool, failed: bool) {
    && i in d.rows && i in d.log.takeovers && i in d'.log.takeovers && i in d.log.releases && i in d'.log.releases
    && var lost := d'.log.takeovers[i] > d.log.takeovers[i] + if d.rows[i].status == Publishing then 1 else 0;
       if confirmed
       then i in d'.log.entered && (failed || lost || i !in d'.rows || d'.rows[i].status == Published)
       else failed || lost || d'.log.releases[i] > d.log.releases[i]
  }

  lemma AllOutcomes(c: DispatcherConfig, d: Desk, y: Cycle, now: Time, d': Desk, claimed: set<EventId>)
    requires claimed == Ids(y.todo) && Allowed(d, ClaimDue(claimed, now))
    requires y.base == Perform(c, d, ClaimDue(claimed, now)) && Tracked(y, d', |y.todo|)
    ensures forall i :: i in claimed ==> Outcome(d, d', i, i in y.good, i in y.failing)
  {
    forall i | i in claimed ensures Outcome(d, d', i, i in y.good, i in y.failing) {
      var l :| 0 <= l < |y.todo| && y.todo[l].0 == i;
      assert Handled(y, d', y.todo[l].0);
    }
  }

  lemma CleanOwes(d: Desk, d': Desk, token: Token, todo: seq<(EventId, OutboxEvent)>, dropped: set<EventId>)
    requires Owes(d, token, todo, |todo|, None, dropped) && d' == d.(rows := d'.rows) && d'.rows.Keys <= d.rows.Keys
    requires forall i :: i in d'.rows ==> d'.rows[i] == d.rows[i]
    ensures Owes(d', token, todo, |todo|, None, dropped)
  {
  }

  lemma OwesMore(d: Desk, token: Token, todo: seq<(EventId, OutboxEvent)>, dropped: set<EventId>, more: set<EventId>)
    requires Owes(d, token, todo, |todo|, None, dropped) && dropped <= more
    ensures Owes(d, token, todo, |todo|, None, more)
  {
  }

  lemma OwesNothing(d: Desk, token: Token, todo: seq<(EventId, OutboxEvent)>, dropped: set<EventId>)
    requires Owes(d, token, todo, |todo|, None, dropped)
    ensures forall x :: x in d.tickets ==> x.token != token
    ensures forall i :: i in d.rows && d.rows[i].leaseToken == Some(token) ==> i in dropped
  {
  }

  lemma NoSuchLease(c: DispatcherConfig, d: Desk)
    requires DeskOk(c, d)
    ensures forall x :: x in d.tickets ==> x.token != d.nextToken
    ensures forall i :: i in d.rows ==> d.rows[i].leaseToken != Some(d.nextToken)
  {
  }

  lemma ReachesSelf(c: DispatcherConfig, d: Desk)
    ensures Reaches(c, d, d)
  {
    assert Runs(c, d, [], d);
  }

  class Dispatcher {
    const outbox: OutboxRepository
    const cfg: DispatcherConfig
    var desk: Desk  // the database and the broker, with every instance's tickets

    ghost predicate Valid() reads this, outbox {
      outbox.rows == desk.rows && outbox.nextToken == desk.nextToken && DeskOk(cfg, desk)
    }

    constructor (outbox: OutboxRepository, cfg: DispatcherConfig)
      requires outbox.rows == map[] && outbox.nextToken == 0
      ensures Valid() && this.outbox == outbox && this.cfg == cfg && desk == EmptyDesk()
    {
      this.outbox, this.cfg, desk := outbox, cfg, EmptyDesk();
    }

    // Other instances, clients and the clock, for any number of steps.
    method Others(ghost start: Desk, ghost y: Cycle, token: Token, ghost n: nat, ghost k: nat, ghost cur: Option<Ticket>,
                  ghost dropped: set<EventId>)
      requires Valid() && k <= |y.todo| && Owes(desk, y.token, y.todo, k, cur, dropped) && Reaches(cfg, start, desk)
      requires Tracked(y, desk, n) && y.token == token
      modifies this, outbox
      ensures Valid() && Owes(desk, y.token, y.todo, k, cur, dropped) && Reaches(cfg, start, desk)
      ensures Tracked(y, desk, n) && old(desk).clock <= desk.clock
    {
      var steps: int :| steps >= 0;
      for m := 0 to steps
        invariant Valid() && Owes(desk, y.token, y.todo, k, cur, dropped) && Reaches(cfg, start, desk)
        invariant Tracked(y, desk, n) && old(desk).clock <= desk.clock
      {
        var a: Act := *;
        if Allowed(desk, a) && !Uses(a, token) {
          hide Owes, Tracked, DeskOk, Reaches, Perform, Allowed;
          OthersKeep(cfg, desk, a, y, n, k, cur, dropped);
          ReachesThenStep(cfg, start, desk, a);
          DeskStep(cfg, desk, a);
          desk := Perform(cfg, desk, a);
          outbox.rows, outbox.nextToken := desk.rows, desk.nextToken;
        }
      }
    }

    // releaseEvent. A write that fails is only logged; lease expiry reclaims the row.
    method ReleaseEvent(ghost start: Desk, token: Token, ghost todo: seq<(EventId, OutboxEvent)>, ghost k: nat,
                        x: Ticket, writeFails: bool, ghost dropped: set<EventId>)
      requires Valid() && k <= |todo| && Owes(desk, token, todo, k, Some(x), dropped) && Reaches(cfg, start, desk)
      requires x.phase != Phase.Confirmed
      modifies this, outbox
      ensures Valid() && Reaches(cfg, start, desk)
      ensures Owes(desk, token, todo, k, None, if writeFails then dropped + {x.event} else dropped)
      ensures desk == Perform(cfg, old(desk), if writeFails then Drop(x) else Release(x, old(desk).clock))
      ensures desk.clock == old(desk).clock
    {
      hide Owes, DeskOk, Reaches, Perform, BackoffFor;
      var now := desk.clock;
      ghost var a := if writeFails then Drop(x) else Release(x, now);
      OwesCurrent(cfg, desk, token, todo, k, x, dropped);
      SettleRows(cfg, desk, x, now);
      SettleOwes(cfg, desk, token, todo, k, x, dropped, a);
      ReachesThenStep(cfg, start, desk, a);
      DeskStep(cfg, desk, a);
      if writeFails {
        desk := Perform(cfg, desk, Drop(x));
      } else {
        var wait := BackoffFor(cfg.baseBackoff, cfg.maxBackoff, x.attempts + 1, cfg.outOfRange);
        outbox.ReleaseWithRetry(x.event, token, x.attempts + 1, now + wait);
        desk := Perform(cfg, desk, Release(x, now));
      }
    }

    // The mark after a confirmed publish. A write that fails is only logged.
    method MarkEvent(ghost start: Desk, token: Token, ghost todo: seq<(EventId, OutboxEvent)>, ghost k: nat,
                     x: Ticket, writeFails: bool, ghost dropped: set<EventId>)
      requires Valid() && k <= |todo| && Owes(desk, token, todo, k, Some(x), dropped) && Reaches(cfg, start, desk)
      requires x.phase == Phase.Confirmed
      modifies this, outbox
      ensures Valid() && Reaches(cfg, start, desk)
      ensures Owes(desk, token, todo, k, None, if writeFails then dropped + {x.event} else dropped)
      ensures desk == Perform(cfg, old(desk), if writeFails then Drop(x) else Mark(x, old(desk).clock))
      ensures desk.clock == old(desk).clock
    {
      hide Owes, DeskOk, Reaches, Perform, BackoffFor;
      var now := desk.clock;
      ghost var a := if writeFails then Drop(x) else Mark(x, now);
      OwesCurrent(cfg, desk, token, todo, k, x, dropped);
      SettleRows(cfg, desk, x, now);
      SettleOwes(cfg, desk, token, todo, k, x, dropped, a);
      ReachesThenStep(cfg, start, desk, a);
      DeskStep(cfg, desk, a);
      if writeFails {
        desk := Perform(cfg, desk, Drop(x));
      } else {
        var ok := outbox.MarkPublished(x.event, token, now);
        desk := Perform(cfg, desk, Mark(x, now));
      }
    }

    // cleanOld: the rows to delete are picked by the database among those published longer
    // than the retention ago.
    method CleanOld(ghost start: Desk, retain: nat, batchSize: nat)
      requires Valid() && Reaches(cfg, start, desk)
      modifies this, outbox
      ensures Valid() && Reaches(cfg, start, desk)
      ensures desk == old(desk).(rows := desk.rows) && desk.rows.Keys <= old(desk).rows.Keys
      ensures forall i :: i in desk.rows ==> desk.rows[i] == old(desk).rows[i]
      ensures forall i :: i in old(desk).rows && i !in desk.rows ==>
                var e := old(desk).rows[i];
                e.status == Published && e.publishedAt.Some? && e.publishedAt.value + retain < desk.clock
      ensures |old(desk).rows.Keys| - |desk.rows.Keys| < batchSize ==>
                forall i :: i in desk.rows && desk.rows[i].status == Published && desk.rows[i].publishedAt.Some? ==>
                  desk.clock <= desk.rows[i].publishedAt.value + retain
    {
      hide Perform;
      var before := if desk.clock < retain then 0 else desk.clock - retain;
      var n := outbox.DeleteOldPublished(before, batchSize);
      ghost var ids := desk.rows.Keys - outbox.rows.Keys;
      assert outbox.rows == desk.rows - ids;
      ReachesThenStep(cfg, start, desk, Clean(ids, before));
      DeskStep(cfg, desk, Clean(ids, before));
      CleanWrites(cfg, desk, ids, before);
      desk := desk.(rows := outbox.rows);
    }

    // One claimed event of runOnce: publish, then mark or release. good says which publishes
    // are tried and confirmed, failing which writes to the row fail.
    method DispatchEvent(ghost start: Desk, ghost y: Cycle, token: Token, todo: seq<(EventId, OutboxEvent)>, k: nat,
                         stopping: bool, p: Delivery.Publish, writeFails: bool, ghost dropped: set<EventId>)
      returns (x: Ticket)
      requires Valid() && k < |todo| && Distinct(todo) && Owes(desk, token, todo, k, None, dropped) && Reaches(cfg, start, desk)
      requires Tracked(y, desk, k) && y.token == token && y.todo == todo
      requires (!stopping && p == Delivery.Confirmed <==> todo[k].0 in y.good) && (writeFails <==> todo[k].0 in y.failing)
      modifies this, outbox
      ensures Valid() && Reaches(cfg, start, desk) && old(desk).clock <= desk.clock
      ensures Owes(desk, token, todo, k + 1, None, if writeFails then dropped + {x.event} else dropped)
      ensures x.event == todo[k].0 && (!stopping && p == Delivery.Confirmed ==> x.event in desk.log.entered)
      ensures Tracked(y, desk, k + 1)
    {
      hide Owes, DeskOk, Reaches, Perform, BackoffFor, Tracked, Distinct;
      x := TicketFor(todo[k], token, Held);
      TakeOwes(desk, token, todo, k, dropped);
      OwesCurrent(cfg, desk, token, todo, k + 1, x, dropped);
      if stopping {
        SettleTracks(cfg, y, desk, if writeFails then Drop(x) else Release(x, desk.clock), k);
        ReleaseEvent(start, token, todo, k + 1, x, writeFails, dropped);
        return;
      }
      SendOwes(cfg, desk, token, todo, k + 1, x, dropped, p);
      SendClock(cfg, desk, x, p);
      TrackedStep(cfg, y, desk, Send(x, p), k);
      ReachesThenStep(cfg, start, desk, Send(x, p));
      DeskStep(cfg, desk, Send(x, p));
      desk := Perform(cfg, desk, Send(x, p));
      x := x.(phase := if p == Delivery.Confirmed then Phase.Confirmed else Failed);
      Others(start, y, token, k, k + 1, Some(x), dropped);
      OwesCurrent(cfg, desk, token, todo, k + 1, x, dropped);
      if p != Delivery.Confirmed {
        SettleTracks(cfg, y, desk, if writeFails then Drop(x) else Release(x, desk.clock), k);
        ReleaseEvent(start, token, todo, k + 1, x, writeFails, dropped);
        return;
      }
      SettleTracks(cfg, y, desk, if writeFails then Drop(x) else Mark(x, desk.clock), k);
      MarkEvent(start, token, todo, k + 1, x, writeFails, dropped);
      TrackedEntered(y, desk, k);
    }

    // The claim of a cycle.
    method ClaimEvents(ghost start: Desk, batchSize: nat, now: Time, locked: set<EventId>)
      returns (token: Token, events: seq<(EventId, OutboxEvent)>)
      requires Valid() && now <= desk.clock && Reaches(cfg, start, desk)
      modifies this, outbox
      ensures Valid() && Reaches(cfg, start, desk) && desk.clock == old(desk).clock
      ensures token == old(desk).nextToken && Distinct(events) && Allowed(old(desk), ClaimDue(Ids(events), now))
      ensures desk == Perform(cfg, old(desk), ClaimDue(Ids(events), now)) && Owes(desk, token, events, 0, None, {})
      ensures Selected(old(desk).rows, Ids(events), batchSize, now, locked)
    {
      hide Owes, DeskOk, Reaches, Due, Selected, Claimed;
      token := outbox.nextToken;
      events := outbox.ClaimBatch(batchSize, cfg.leaseTTL, now, locked);
      ghost var a := ClaimDue(Ids(events), now);
      ClaimWrites(cfg, desk, Ids(events), now);
      ReachesThenStep(cfg, start, desk, a);
      DeskStep(cfg, desk, a);
      ClaimOwes(cfg, desk, events, now);
      IdsCount(events);
      DueSelected(desk.rows, Ids(events), batchSize, now, locked);
      hide Perform, Allowed;
      desk := Perform(cfg, desk, ClaimDue(Ids(events), now));
    }

    // runOnce, given what goes wrong: whether the claim fails, the rows other transactions
    // have locked, whether the broker can be reached, the events reached after a stop, the
    // publishes that are confirmed and the writes of marks and releases that fail. However
    // it goes and whatever others do meanwhile, what happened is a run of Dispatch and every
    // ticket of the cycle is settled. A confirmed event entered the queue and is published,
    // unless its write failed or its lease was lost; any other claimed event was released,
    // with the same exceptions; and a row keeps the lease only where its write failed.
    method RunOnce(batchSize: nat, cleanBatch: nat, now: Time, retain: nat, claimFails: bool, locked: set<EventId>,
                   brokerUp: bool, stopping: set<EventId>, confirmed: set<EventId>, failing: set<EventId>)
      returns (ghost claimed: set<EventId>)
      requires Valid() && now <= desk.clock
      modifies this, outbox
      ensures Valid() && Reaches(cfg, old(desk), desk)
      ensures claimFails ==> desk == old(desk) && claimed == {}
      ensures !claimFails ==> Selected(old(desk).rows, claimed, batchSize, now, locked)
      ensures forall x :: x in desk.tickets ==> x.token != old(desk).nextToken
      ensures forall i :: i in desk.rows && desk.rows[i].leaseToken == Some(old(desk).nextToken) ==> i in failing
      ensures forall i :: i in claimed ==>
                Outcome(old(desk), desk, i, brokerUp && i !in stopping && i in confirmed, i in failing)
    {
      hide Owes, DeskOk, Reaches, BackoffFor, Tracked, Distinct, Selected, Perform, Allowed;
      ghost var start := desk;
      ReachesSelf(cfg, start);
      claimed := {};
      if claimFails {
        NoSuchLease(cfg, desk);
        return;
      }
      var token, events := ClaimEvents(start, batchSize, now, locked);
      claimed := Ids(events);
      ghost var y := Cycle(desk, token, events, if brokerUp then confirmed - stopping else {}, failing);
      ClaimTracks(cfg, start, y, now);
      DispatchAll(start, y, token, events, brokerUp, stopping, confirmed, failing);
      if brokerUp || |events| == 0 {
        ghost var d := desk;
        CleanOld(start, retain, cleanBatch);
        CleanTracks(y, d, desk, |events|);
        CleanOwes(d, desk, token, events, failing);
      }
      AllOutcomes(cfg, start, y, now, desk, claimed);
      OwesNothing(desk, token, events, failing);
    }

    method DispatchAll(ghost start: Desk, ghost y: Cycle, token: Token, events: seq<(EventId, OutboxEvent)>,
                       brokerUp: bool, stopping: set<EventId>, confirmed: set<EventId>, failing: set<EventId>)
      requires Valid() && Distinct(events) && Owes(desk, token, events, 0, None, {}) && Reaches(cfg, start, desk)
      requires Tracked(y, desk, 0) && y.token == token && y.todo == events
      requires y.good == (if brokerUp then confirmed - stopping else {}) && y.failing == failing
      modifies this, outbox
      ensures Valid() && Reaches(cfg, start, desk) && old(desk).clock <= desk.clock
      ensures Tracked(y, desk, |events|) && Owes(desk, token, events, |events|, None, failing)
    {
      hide Owes, DeskOk, Reaches, Tracked, Distinct;
      ghost var dropped: set<EventId> := {};
      for k := 0 to |events|
        invariant Valid() && Reaches(cfg, start, desk) && old(desk).clock <= desk.clock
        invariant Owes(desk, token, events, k, None, dropped) && dropped <= failing && Tracked(y, desk, k)
      {
        Others(start, y, token, k, k, None, dropped);
        var i := events[k].0;
        var late: bool := *;
        var p := if i in confirmed then Delivery.Confirmed else if late then Delivery.EnteredButFailed else Delivery.NotEntered;
        var x := DispatchEvent(start, y, token, events, k, i in stopping || !brokerUp, p, i in failing, dropped);
        if i in failing {
          dropped := dropped + {x.event};
        }
      }
      OwesMore(desk, token, events, dropped, failing);
    }
  }
}
