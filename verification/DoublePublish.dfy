// How often the message of one outbox event enters the main queue: more than
// once is possible, and only after a release or an expired lease.
module DoublePublish {
  import opened Options
  import opened Messages
  import opened Outbox
  import opened Backoff
  import opened Dispatch
  import Delivery

  // ---- what each publish is paid for with ----------------------------------

  function HeldFor(d: Desk, i: EventId): set<Ticket> {
    set k | k in d.tickets && k.event == i && k.phase == Held
  }

  function LateFor(d: Desk, i: EventId): set<Ticket> {
    set k | k in d.wire && k.event == i
  }

  // Publishes done, and those that may still come without another claim.
  predicate Paid(d: Desk, i: EventId) {
    && i in d.log.sends && i in d.log.claims && i in d.log.takeovers && i in d.log.releases
    && d.log.sends[i] + |HeldFor(d, i)| + |LateFor(d, i)| <= d.log.claims[i]
    && d.log.claims[i] == d.log.takeovers[i] + d.log.releases[i]
                          + (if i in d.rows && d.rows[i].status == Pending then 0 else 1)
    && (i in d.log.entered <==> d.log.sends[i] > 0)
  }

  ghost predicate AllPaid(d: Desk) {
    forall i :: 0 <= i < d.nextEvent ==> Paid(d, i)
  }

  lemma Fewer<T>(a: set<T>, b: set<T>)
    requires a <= b
    ensures |a| <= |b|
    decreases |b|
  {
    if x :| x in b {
      Fewer(a - {x}, b - {x});
    }
  }

  lemma ClaimPays(c: DispatcherConfig, d: Desk, a: Act, i: EventId)
    requires DeskOk(c, d) && Allowed(d, a) && a.ClaimDue? && Paid(d, i)
    ensures Paid(Perform(c, d, a), i)
  {
    var d' := Perform(c, d, a);
    var x := Ticket(i, d.nextToken, if i in d.rows then d.rows[i].attemptCount else 0, Held);
    assert LateFor(d', i) == LateFor(d, i);
    if i in a.ids {
      assert HeldFor(d', i) <= HeldFor(d, i) + {x};
      Fewer(HeldFor(d', i), HeldFor(d, i) + {x});
    } else {
      assert HeldFor(d', i) == HeldFor(d, i);
    }
  }

  lemma SendPays(c: DispatcherConfig, d: Desk, a: Act, i: EventId)
    requires Allowed(d, a) && (a.Send? || a.Surface?) && Paid(d, i)
    ensures Paid(Perform(c, d, a), i)
  {
    var d', k := Perform(c, d, a), a.k;
    if k.event != i {
      assert HeldFor(d', i) == HeldFor(d, i) && LateFor(d', i) == LateFor(d, i);
    } else if a.Send? {
      assert HeldFor(d', i) == HeldFor(d, i) - {k} && k in HeldFor(d, i);
      assert LateFor(d', i) <= LateFor(d, i) + (if a.p == Delivery.NotEntered then {k} else {});
      Fewer(LateFor(d', i), LateFor(d, i) + (if a.p == Delivery.NotEntered then {k} else {}));
    } else {
      assert HeldFor(d', i) == HeldFor(d, i);
      assert LateFor(d', i) == LateFor(d, i) - {k} && k in LateFor(d, i);
    }
  }

  lemma SettlePays(c: DispatcherConfig, d: Desk, a: Act, i: EventId)
    requires DeskOk(c, d) && Allowed(d, a) && (a.Mark? || a.Release? || a.Drop? || a.Clean?) && Paid(d, i)
    ensures Paid(Perform(c, d, a), i)
  {
    hide BackoffFor;
    var d' := Perform(c, d, a);
    assert LateFor(d', i) == LateFor(d, i) && HeldFor(d', i) <= HeldFor(d, i);
    Fewer(HeldFor(d', i), HeldFor(d, i));
  }

  lemma OpenPays(c: DispatcherConfig, d: Desk, a: Act, i: EventId)
    requires DeskOk(c, d) && Allowed(d, a) && (a.Pass? || a.Insert?) && i < Perform(c, d, a).nextEvent
    requires i < d.nextEvent ==> Paid(d, i)
    ensures Paid(Perform(c, d, a), i)
  {
    var d' := Perform(c, d, a);
    assert HeldFor(d', i) == HeldFor(d, i) && LateFor(d', i) == LateFor(d, i);
    if i == d.nextEvent {
      assert HeldFor(d, i) == {} && LateFor(d, i) == {};
    }
  }

  lemma PaidStep(c: DispatcherConfig, d: Desk, a: Act)
    requires DeskOk(c, d) && Allowed(d, a) && AllPaid(d)
    ensures AllPaid(Perform(c, d, a))
  {
    hide DeskOk, Paid, Allowed, Perform;
    forall i | 0 <= i < Perform(c, d, a).nextEvent ensures Paid(Perform(c, d, a), i) {
      EventsStay(c, d, a);
      match a {
        case ClaimDue(_, _) => ClaimPays(c, d, a, i);
        case Send(_, _) => SendPays(c, d, a, i);
        case Surface(_) => SendPays(c, d, a, i);
        case Pass(_) => OpenPays(c, d, a, i);
        case Insert(_, _, _) => OpenPays(c, d, a, i);
        case _ => SettlePays(c, d, a, i);
      }
    }
  }

  lemma EventsStay(c: DispatcherConfig, d: Desk, a: Act)
    requires Allowed(d, a)
    ensures !a.Insert? ==> Perform(c, d, a).nextEvent == d.nextEvent
  {
    hide BackoffFor;
  }

  lemma {:induction false} PaidRuns(c: DispatcherConfig, d: Desk, acts: seq<Act>, d': Desk)
    requires DeskOk(c, d) && AllPaid(d) && Runs(c, d, acts, d')
    ensures AllPaid(d')
    decreases |acts|
  {
    hide DeskOk, AllPaid, Allowed, Perform;
    if acts != [] {
      DeskStep(c, d, acts[0]);
      PaidStep(c, d, acts[0]);
      PaidRuns(c, Perform(c, d, acts[0]), acts[1..], d');
    }
  }

  lemma PossiblePaid(c: DispatcherConfig, d: Desk)
    requires Possible(c, d)
    ensures AllPaid(d)
  {
    hide Runs;
    var acts :| Runs(c, EmptyDesk(), acts, d);
    PaidRuns(c, EmptyDesk(), acts, d);
  }

  // ---- results -------------------------------------------------------------

  // An event enters the main queue at most once per effective release and per expired
  // lease, and once more; without either, at most once.
  lemma SendsBounded(c: DispatcherConfig, d: Desk, i: EventId)
    requires Possible(c, d) && i < d.nextEvent
    ensures i in d.log.sends && i in d.log.releases && i in d.log.takeovers
    ensures d.log.sends[i] <= 1 + d.log.releases[i] + d.log.takeovers[i]
    ensures i in d.log.entered <==> d.log.sends[i] > 0
  {
    hide Possible;
    PossiblePaid(c, d);
    assert Paid(d, i);
  }

  function SendsOf(d: Desk, i: EventId): nat {
    if i in d.log.sends then d.log.sends[i] else 0
  }

  predicate PublishesAgain(d: Desk, a: Act, i: EventId) {
    i in d.log.entered && (a.Surface? || (a.Send? && a.p != Delivery.NotEntered)) && a.k.event == i
  }

  // A step publishes an event a second time or more if and only if a publish on a claim of
  // it enters although an earlier one did, and then the earlier claim was released, or its
  // lease expired, before it was marked.
  lemma EntersAgainIff(c: DispatcherConfig, d: Desk, a: Act, i: EventId)
    requires Possible(c, d) && Allowed(d, a) && i < d.nextEvent
    ensures SendsOf(Perform(c, d, a), i) > SendsOf(d, i) && SendsOf(Perform(c, d, a), i) >= 2 <==> PublishesAgain(d, a, i)
    ensures PublishesAgain(d, a, i) ==>
              i in d.log.releases && i in d.log.takeovers && d.log.releases[i] + d.log.takeovers[i] >= 1
  {
    hide Possible, BackoffFor;
    PossiblePaid(c, d);
    assert Paid(d, i);
    if PublishesAgain(d, a, i) {
      assert a.k in HeldFor(d, i) + LateFor(d, i);
      assert |HeldFor(d, i)| + |LateFor(d, i)| >= 1;
    }
  }

  // ---- a run that publishes one event twice --------------------------------

  function RetryAt(c: DispatcherConfig): Time {
    BackoffFor(c.baseBackoff, c.maxBackoff, 1, c.outOfRange)
  }

  function TicketOf(token: Token, attempts: nat, phase: Phase): Ticket {
    Ticket(0, token, attempts, phase)
  }

  function FirstRow(c: DispatcherConfig): OutboxEvent {
    Leased(NewOutboxEvent(1, 7, 0), 0, c.leaseTTL)
  }

  function FirstClaimed(c: DispatcherConfig): Desk {
    Desk(0, 1, 1, map[0 := FirstRow(c)], {TicketOf(0, 0, Held)}, {},
         OutboxLog({}, map[0 := 0], map[0 := 1], map[0 := 0], map[0 := 0], map[0 := 0]))
  }

  // The first publish entered, its confirmation did not come back in time.
  function FirstSent(c: DispatcherConfig): Desk {
    FirstClaimed(c).(tickets := {TicketOf(0, 0, Failed)},
                     log := OutboxLog({0}, map[0 := 1], map[0 := 1], map[0 := 0], map[0 := 0], map[0 := 0]))
  }

  lemma ReachStep(c: DispatcherConfig, d: Desk, a: Act)
    requires Possible(c, d) && Allowed(d, a)
    ensures Possible(c, Perform(c, d, a))
  {
    hide Allowed, Perform, Runs;
    assert Reaches(c, EmptyDesk(), d);
    ReachesThenStep(c, EmptyDesk(), d, a);
  }

  lemma ReachFirstClaimed(c: DispatcherConfig)
    ensures Possible(c, FirstClaimed(c))
  {
    assert Runs(c, EmptyDesk(), [], EmptyDesk());
    hide Possible, Runs, BackoffFor;
    var d0 := EmptyDesk();
    ReachStep(c, d0, Insert(1, 7, 0));
    var d1 := Perform(c, d0, Insert(1, 7, 0));
    ReachStep(c, d1, ClaimDue({0}, 0));
    var d2 := Perform(c, d1, ClaimDue({0}, 0));
    assert d2.tickets == {TicketOf(0, 0, Held)};
    assert d2.rows == map[0 := FirstRow(c)];
    assert d2.log == FirstClaimed(c).log;
  }

  lemma ReachFirstSent(c: DispatcherConfig)
    ensures Possible(c, FirstSent(c))
  {
    ReachFirstClaimed(c);
    hide Possible, BackoffFor, FirstRow;
    var k := TicketOf(0, 0, Held);
    ReachStep(c, FirstClaimed(c), Send(k, Delivery.EnteredButFailed));
    var d := Perform(c, FirstClaimed(c), Send(k, Delivery.EnteredButFailed));
    assert d.tickets == {TicketOf(0, 0, Failed)};
    assert d.log == FirstSent(c).log;
    assert d == FirstSent(c);
  }

  // The dispatcher releases the row, and when the backoff is over it is claimed again.
  lemma ReachSecondClaim(c: DispatcherConfig) returns (d: Desk)
    ensures Possible(c, d) && TicketOf(1, 1, Held) in d.tickets && d.log.sends == map[0 := 1]
  {
    ReachFirstSent(c);
    hide Possible, BackoffFor;
    var d0, x := FirstSent(c), TicketOf(0, 0, Failed);
    ReachStep(c, d0, Release(x, 0));
    var d1 := Perform(c, d0, Release(x, 0));
    assert d1.rows[0].status == Pending && d1.rows[0].nextRetryAt == RetryAt(c) && d1.rows[0].attemptCount == 1;
    var t := RetryAt(c) + 1;
    ReachStep(c, d1, Pass(t));
    var d2 := Perform(c, d1, Pass(t));
    ReachStep(c, d2, ClaimDue({0}, t));
    d := Perform(c, d2, ClaimDue({0}, t));
  }

  // Under every configuration some run publishes one event twice: the row lock of the
  // claim does not prevent it.
  lemma PublishedTwice(c: DispatcherConfig) returns (d: Desk)
    ensures Possible(c, d) && 0 in d.log.sends && d.log.sends[0] == 2
  {
    d := ReachSecondClaim(c);
    hide Possible;
    ReachStep(c, d, Send(TicketOf(1, 1, Held), Delivery.Confirmed));
    d := Perform(c, d, Send(TicketOf(1, 1, Held), Delivery.Confirmed));
  }
}
