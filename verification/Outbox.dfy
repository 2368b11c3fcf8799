// internal/queryjob/outbox.go: the outbox_events table.
module Outbox {
  import opened Options
  import opened Messages

  type EventId = nat
  type Token = nat

  datatype OutboxStatus = Pending | Publishing | Published

  datatype OutboxEvent = OutboxEvent(
    messageId: MessageId, jobId: JobId, status: OutboxStatus, attemptCount: nat, nextRetryAt: Time,
    leaseToken: Option<Token>, leaseExpiresAt: Option<Time>, publishedAt: Option<Time>)

  type EventTable = map<EventId, OutboxEvent>

  function NewOutboxEvent(j: JobId, m: MessageId, now: Time): OutboxEvent {
    OutboxEvent(m, j, Pending, 0, now, None, None, None)
  }

  // The WHERE clause of ClaimBatch; a NULL lease expiry is never due.
  predicate Due(e: OutboxEvent, now: Time) {
    || (e.status == Pending && e.nextRetryAt <= now)
    || (e.status == Publishing && e.leaseExpiresAt.Some? && e.leaseExpiresAt.value <= now)
  }

  function Leased(e: OutboxEvent, token: Token, expires: Time): OutboxEvent {
    e.(status := Publishing, leaseToken := Some(token), leaseExpiresAt := Some(expires))
  }

  function Claimed(t: EventTable, ids: set<EventId>, token: Token, expires: Time): EventTable {
    map i | i in t :: if i in ids then Leased(t[i], token, expires) else t[i]
  }

  predicate HoldsPublishing(t: EventTable, i: EventId, token: Token) {
    i in t && t[i].leaseToken == Some(token) && t[i].status == Publishing
  }

  function MarkedPublished(t: EventTable, i: EventId, token: Token, at: Time): EventTable {
    if HoldsPublishing(t, i, token)
    then t[i := t[i].(status := Published, publishedAt := Some(at), leaseToken := None, leaseExpiresAt := None)]
    else t
  }

  // No status guard, as in the source.
  function Released(t: EventTable, i: EventId, token: Token, attemptCount: nat, nextRetryAt: Time): EventTable {
    if i in t && t[i].leaseToken == Some(token)
    then t[i := t[i].(status := Pending, attemptCount := attemptCount, nextRetryAt := nextRetryAt,
                      leaseToken := None, leaseExpiresAt := None)]
    else t
  }

  predicate OldPublished(e: OutboxEvent, before: Time) {
    e.status == Published && e.publishedAt.Some? && e.publishedAt.value < before
  }

  // ---- the repository ------------------------------------------------------

  function Ids(events: seq<(EventId, OutboxEvent)>): set<EventId> {
    set k | 0 <= k < |events| :: events[k].0
  }

  ghost predicate Distinct(events: seq<(EventId, OutboxEvent)>) {
    forall k, l :: 0 <= k < l < |events| ==> events[k].0 != events[l].0
  }

  class OutboxRepository {
    var rows: EventTable
    var nextToken: Token

    constructor ()
      ensures rows == map[]
    {
      rows, nextToken := map[], 0;
    }

    // SELECT ... LIMIT batchSize FOR UPDATE SKIP LOCKED: due rows that no other transaction has locked.
    method SelectDue(batchSize: nat, now: Time, locked: set<EventId>) returns (events: seq<(EventId, OutboxEvent)>)
      ensures Distinct(events) && |events| <= batchSize
      ensures forall k :: 0 <= k < |events| ==>
                events[k].0 in rows && events[k].0 !in locked && events[k].1 == rows[events[k].0] && Due(events[k].1, now)
                && (events[k].1.status == Pending ==> events[k].1.nextRetryAt <= now)
                && (events[k].1.status == Publishing ==>
                      events[k].1.leaseExpiresAt.Some? && events[k].1.leaseExpiresAt.value <= now)
                && events[k].1.status != Published
      ensures |events| < batchSize ==>
                forall i :: i in rows && Due(rows[i], now) && i !in locked ==> exists k :: 0 <= k < |events| && events[k].0 == i
    {
      events := [];
      var left := rows.Keys;
      while left != {} && |events| < batchSize
        invariant left <= rows.Keys && |events| <= batchSize && Distinct(events)
        invariant forall k :: 0 <= k < |events| ==>
                    events[k].0 !in left && events[k].0 in rows && events[k].0 !in locked
                    && events[k].1 == rows[events[k].0] && Due(events[k].1, now)
        invariant forall i :: i in rows && i !in left && Due(rows[i], now) && i !in locked ==>
                    exists k :: 0 <= k < |events| && events[k].0 == i
        decreases left
      {
        var i :| i in left;
        left := left - {i};
        if Due(rows[i], now) && i !in locked {
          ghost var before := events;
          events := events + [(i, rows[i])];
          assert forall k :: 0 <= k < |before| ==> events[k] == before[k];
          assert events[|before|].0 == i;
        }
      }
    }

    // One transaction: select, collect the ids, update them under the same guard, and
    // give the returned copies the new lease.
    method ClaimBatch(batchSize: nat, leaseTTL: nat, now: Time, locked: set<EventId>)
      returns (events: seq<(EventId, OutboxEvent)>)
      modifies this
      ensures Distinct(events) && |events| <= batchSize
      ensures forall i :: i in Ids(events) ==> i in old(rows) && Due(old(rows)[i], now) && i !in locked
      ensures |events| < batchSize ==>
                forall i :: i in old(rows) && Due(old(rows)[i], now) && i !in locked ==> i in Ids(events)
      ensures |events| < batchSize ==>
                forall i :: i in old(rows) && i !in locked && i !in Ids(events) ==>
                  && (old(rows)[i].status == Pending ==> now < old(rows)[i].nextRetryAt)
                  && (old(rows)[i].status == Publishing && old(rows)[i].leaseExpiresAt.Some? ==>
                        now < old(rows)[i].leaseExpiresAt.value)
      ensures rows == Claimed(old(rows), Ids(events), old(nextToken), now + leaseTTL) && nextToken == old(nextToken) + 1
      ensures forall k :: 0 <= k < |events| ==> events[k].0 in rows && events[k].1 == rows[events[k].0]
      ensures forall i :: i in Ids(events) ==>
                && (old(rows)[i].status == Pending ==> old(rows)[i].nextRetryAt <= now)
                && (old(rows)[i].status == Publishing ==>
                      old(rows)[i].leaseExpiresAt.Some? && old(rows)[i].leaseExpiresAt.value <= now)
                && old(rows)[i].status != Published
                && rows[i].status == Publishing && rows[i].leaseToken == Some(old(nextToken))
                && rows[i].leaseExpiresAt == Some(now + leaseTTL)
      ensures forall i :: i in old(rows) && i !in Ids(events) ==> i in rows && rows[i] == old(rows)[i]
    {
      events := SelectDue(batchSize, now, locked);
      var selected := events;
      var ids: set<EventId> := {};
      for k := 0 to |events|
        invariant ids == set l | 0 <= l < k :: events[l].0
      {
        ids := ids + {events[k].0};
      }
      var token, expires := nextToken, now + leaseTTL;
      nextToken := nextToken + 1;
      rows := map i | i in rows ::
        if i in ids && (rows[i].status == Pending || Due(rows[i], now)) then Leased(rows[i], token, expires) else rows[i];
      for k := 0 to |events|
        invariant |events| == |selected|
        invariant forall l :: 0 <= l < |events| ==> events[l].0 == selected[l].0
        invariant forall l :: 0 <= l < k ==> events[l].1 == Leased(selected[l].1, token, expires)
        invariant forall l :: k <= l < |events| ==> events[l].1 == selected[l].1
      {
        events := events[k := (events[k].0, events[k].1.(status := Publishing, leaseToken := Some(token),
                                                         leaseExpiresAt := Some(expires)))];
      }
      assert Ids(events) == Ids(selected) == ids;
    }

    // ok == false is ErrLeaseLost.
    method MarkPublished(i: EventId, token: Token, at: Time) returns (ok: bool)
      modifies this`rows
      ensures ok == HoldsPublishing(old(rows), i, token)
      ensures rows == MarkedPublished(old(rows), i, token, at)
      ensures ok ==> i in rows && rows[i] == old(rows)[i].(status := Published, publishedAt := Some(at),
                                                           leaseToken := None, leaseExpiresAt := None)
    {
      ok := i in rows && rows[i].leaseToken == Some(token) && rows[i].status == Publishing;
      if ok {
        rows := rows[i := rows[i].(status := Published, publishedAt := Some(at), leaseToken := None, leaseExpiresAt := None)];
      }
    }

    method ReleaseWithRetry(i: EventId, token: Token, attemptCount: nat, nextRetryAt: Time)
      modifies this`rows
      ensures rows == Released(old(rows), i, token, attemptCount, nextRetryAt)
      ensures i in old(rows) && old(rows)[i].leaseToken == Some(token) ==>
                rows == old(rows)[i := old(rows)[i].(status := Pending, attemptCount := attemptCount, nextRetryAt := nextRetryAt,
                                                     leaseToken := None, leaseExpiresAt := None)]
    {
      if i in rows && rows[i].leaseToken == Some(token) {
        rows := rows[i := rows[i].(status := Pending, attemptCount := attemptCount, nextRetryAt := nextRetryAt,
                                   leaseToken := None, leaseExpiresAt := None)];
      }
    }

    method DeleteOldPublished(before: Time, batchSize: nat) returns (n: nat)
      modifies this`rows
      ensures forall i :: i in rows ==> i in old(rows) && rows[i] == old(rows)[i]
      ensures forall i :: i in old(rows) && i !in rows ==>
                OldPublished(old(rows)[i], before) && old(rows)[i].status == Published
                && old(rows)[i].publishedAt.Some? && old(rows)[i].publishedAt.value < before
      ensures n == |old(rows).Keys| - |rows.Keys| && n <= batchSize
      ensures n < batchSize ==> forall i :: i in rows ==> !OldPublished(rows[i], before)
      ensures n < batchSize ==>
                forall i :: i in rows && rows[i].status == Published && rows[i].publishedAt.Some? ==>
                  before <= rows[i].publishedAt.value
    {
      n := 0;
      var left := rows.Keys;
      while left != {} && n < batchSize
        invariant left <= rows.Keys <= old(rows).Keys && n <= batchSize
        invariant n == |old(rows).Keys| - |rows.Keys|
        invariant forall i :: i in rows ==> i in old(rows) && rows[i] == old(rows)[i]
        invariant forall i :: i in old(rows) && i !in rows ==> OldPublished(old(rows)[i], before)
        invariant forall i :: i in rows && i !in left ==> !OldPublished(rows[i], before)
        decreases left
      {
        var i :| i in left;
        left := left - {i};
        if OldPublished(rows[i], before) {
          var rest := rows - {i};
          assert rest.Keys == rows.Keys - {i};
          rows := rest;
          n := n + 1;
        }
      }
    }
  }
}
