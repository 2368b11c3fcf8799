// When outbox rows become claimable and deletable, over whole runs: the backoff,
// the lease and the retention are waited out.
module OutboxTiming {
  import opened Options
  import opened Messages
  import opened Outbox
  import opened Backoff
  import opened Dispatch
  import Delivery

  predicate Claims(a: Act, i: EventId) {
    a.ClaimDue? && i in a.ids
  }

  predicate Cleans(a: Act, i: EventId) {
    a.Clean? && i in a.ids
  }

  // The holder of the lease settles the row.
  predicate Settles(a: Act, i: EventId, token: Token) {
    (a.Mark? || a.Release?) && a.k.event == i && a.k.token == token
  }

  // ---- backoff -------------------------------------------------------------

  lemma BackoffStep(c: DispatcherConfig, d: Desk, a: Act, i: EventId)
    requires DeskOk(c, d) && Allowed(d, a) && i in d.rows && d.rows[i].status == Pending
    ensures Claims(a, i) ==> d.rows[i].nextRetryAt <= a.now
    ensures !Claims(a, i) ==> i in Perform(c, d, a).rows && Perform(c, d, a).rows[i] == d.rows[i]
  {
    hide BackoffFor;
  }

  // In every continuation the first claim of a pending row reads a time not before its retry time.
  lemma {:induction false} PendingWaits(c: DispatcherConfig, d: Desk, acts: seq<Act>, d': Desk, i: EventId, n: nat)
    requires DeskOk(c, d) && Runs(c, d, acts, d') && i in d.rows && d.rows[i].status == Pending
    requires n < |acts| && Claims(acts[n], i) && forall m :: 0 <= m < n ==> !Claims(acts[m], i)
    ensures d.rows[i].nextRetryAt <= acts[n].now
    decreases n
  {
    hide DeskOk, Allowed, Perform;
    BackoffStep(c, d, acts[0], i);
    if n > 0 {
      DeskStep(c, d, acts[0]);
      PendingWaits(c, Perform(c, d, acts[0]), acts[1..], d', i, n - 1);
    }
  }

  lemma ReleaseWaits(c: DispatcherConfig, d: Desk, k: Ticket, t: Time)
    requires DeskOk(c, d) && Allowed(d, Release(k, t))
    requires k.event in d.rows && d.rows[k.event].leaseToken == Some(k.token)
    ensures var d' := Perform(c, d, Release(k, t));
            && k.event in d'.rows && d'.rows[k.event].status == Pending
            && d'.rows[k.event].attemptCount == d.rows[k.event].attemptCount + 1
            && d'.rows[k.event].nextRetryAt
                 == t + BackoffFor(c.baseBackoff, c.maxBackoff, d'.rows[k.event].attemptCount, c.outOfRange)
  {
    hide BackoffFor;
  }

  // After a release at t that took effect, no continuation claims the row with a reading
  // before the backoff of its new count is over.
  lemma BackoffIsWaitedOut(c: DispatcherConfig, d: Desk, k: Ticket, t: Time, acts: seq<Act>, d': Desk, n: nat)
    requires Possible(c, d) && Allowed(d, Release(k, t))
    requires k.event in d.rows && d.rows[k.event].leaseToken == Some(k.token)
    requires Runs(c, Perform(c, d, Release(k, t)), acts, d')
    requires n < |acts| && Claims(acts[n], k.event) && forall m :: 0 <= m < n ==> !Claims(acts[m], k.event)
    ensures t + BackoffFor(c.baseBackoff, c.maxBackoff, d.rows[k.event].attemptCount + 1, c.outOfRange) <= acts[n].now
  {
    hide Possible, DeskOk, Allowed, Perform, Runs;
    PossibleOk(c, d);
    DeskStep(c, d, Release(k, t));
    ReleaseWaits(c, d, k, t);
    PendingWaits(c, Perform(c, d, Release(k, t)), acts, d', k.event, n);
  }

  // ---- leases --------------------------------------------------------------

  predicate LeasedUntil(d: Desk, i: EventId, token: Token, until: Time) {
    i in d.rows && d.rows[i].status == Publishing && d.rows[i].leaseToken == Some(token) && d.rows[i].leaseExpiresAt == Some(until)
  }

  lemma LeaseStep(c: DispatcherConfig, d: Desk, a: Act, i: EventId, token: Token, until: Time)
    requires DeskOk(c, d) && Allowed(d, a) && LeasedUntil(d, i, token, until)
    ensures Claims(a, i) ==> until <= a.now
    ensures !Claims(a, i) && !Settles(a, i, token) ==> LeasedUntil(Perform(c, d, a), i, token, until)
  {
    hide BackoffFor;
  }

  lemma {:induction false} LeaseProtects(c: DispatcherConfig, d: Desk, acts: seq<Act>, d': Desk, i: EventId, token: Token,
                                         until: Time, n: nat)
    requires DeskOk(c, d) && Runs(c, d, acts, d') && LeasedUntil(d, i, token, until)
    requires n < |acts| && Claims(acts[n], i)
    requires forall m :: 0 <= m < n ==> !Claims(acts[m], i) && !Settles(acts[m], i, token)
    ensures until <= acts[n].now
    decreases n
  {
    hide DeskOk, Allowed, Perform, LeasedUntil;
    LeaseStep(c, d, acts[0], i, token, until);
    if n > 0 {
      DeskStep(c, d, acts[0]);
      LeaseProtects(c, Perform(c, d, acts[0]), acts[1..], d', i, token, until, n - 1);
    }
  }

  lemma ClaimLeases(c: DispatcherConfig, d: Desk, ids: set<EventId>, now: Time, i: EventId)
    requires Allowed(d, ClaimDue(ids, now)) && i in ids
    ensures LeasedUntil(Perform(c, d, ClaimDue(ids, now)), i, d.nextToken, now + c.leaseTTL)
  {
  }

  // A fresh lease keeps its row from every other claim that reads a time before now + leaseTTL.
  lemma FreshLeaseProtects(c: DispatcherConfig, d: Desk, ids: set<EventId>, now: Time, i: EventId, acts: seq<Act>,
                           d': Desk, n: nat)
    requires Possible(c, d) && Allowed(d, ClaimDue(ids, now)) && i in ids
    requires Runs(c, Perform(c, d, ClaimDue(ids, now)), acts, d')
    requires n < |acts| && Claims(acts[n], i)
    requires forall m :: 0 <= m < n ==> !Claims(acts[m], i) && !Settles(acts[m], i, d.nextToken)
    ensures now + c.leaseTTL <= acts[n].now
  {
    hide Possible, DeskOk, Allowed, Perform, Runs, LeasedUntil;
    PossibleOk(c, d);
    DeskStep(c, d, ClaimDue(ids, now));
    ClaimLeases(c, d, ids, now, i);
    LeaseProtects(c, Perform(c, d, ClaimDue(ids, now)), acts, d', i, d.nextToken, now + c.leaseTTL, n);
  }

  // ---- retention -----------------------------------------------------------

  predicate PublishedSince(d: Desk, i: EventId, at: Time) {
    i in d.rows && d.rows[i].status == Published && d.rows[i].publishedAt == Some(at)
  }

  lemma RetentionStep(c: DispatcherConfig, d: Desk, a: Act, i: EventId, at: Time)
    requires DeskOk(c, d) && Allowed(d, a) && PublishedSince(d, i, at)
    ensures Cleans(a, i) ==> at < a.before
    ensures !Cleans(a, i) ==> PublishedSince(Perform(c, d, a), i, at)
  {
    hide BackoffFor;
  }

  lemma {:induction false} PublishedWaits(c: DispatcherConfig, d: Desk, acts: seq<Act>, d': Desk, i: EventId, at: Time, n: nat)
    requires DeskOk(c, d) && Runs(c, d, acts, d') && PublishedSince(d, i, at)
    requires n < |acts| && Cleans(acts[n], i) && forall m :: 0 <= m < n ==> !Cleans(acts[m], i)
    ensures at < acts[n].before
    decreases n
  {
    hide DeskOk, Allowed, Perform, PublishedSince;
    RetentionStep(c, d, acts[0], i, at);
    if n > 0 {
      DeskStep(c, d, acts[0]);
      PublishedWaits(c, Perform(c, d, acts[0]), acts[1..], d', i, at, n - 1);
    }
  }

  lemma MarkPublishes(c: DispatcherConfig, d: Desk, k: Ticket, at: Time)
    requires DeskOk(c, d) && Allowed(d, Mark(k, at)) && k.event in d.rows && d.rows[k.event].leaseToken == Some(k.token)
    ensures PublishedSince(Perform(c, d, Mark(k, at)), k.event, at)
  {
  }

  // A row marked at `at` is deleted, in whatever continuation, only by a cleanup whose cutoff is later.
  lemma RetentionIsWaitedOut(c: DispatcherConfig, d: Desk, k: Ticket, at: Time, acts: seq<Act>, d': Desk, n: nat)
    requires Possible(c, d) && Allowed(d, Mark(k, at)) && k.event in d.rows && d.rows[k.event].leaseToken == Some(k.token)
    requires Runs(c, Perform(c, d, Mark(k, at)), acts, d')
    requires n < |acts| && Cleans(acts[n], k.event) && forall m :: 0 <= m < n ==> !Cleans(acts[m], k.event)
    ensures at < acts[n].before
  {
    hide Possible, DeskOk, Allowed, Perform, Runs, PublishedSince;
    PossibleOk(c, d);
    DeskStep(c, d, Mark(k, at));
    MarkPublishes(c, d, k, at);
    PublishedWaits(c, Perform(c, d, Mark(k, at)), acts, d', k.event, at, n);
  }
}
