// internal/queryjob/idempotency.go: the processed_messages table.
module Idempotency {
  import opened Options
  import opened Messages

  const LEASE_TTL := 30_000_000_000  // nanoseconds

  type Token = nat

  datatype PmStatus = Processing | RetryScheduled | Completed

  datatype ProcessedMessage = ProcessedMessage(
    kind: Kind, jobId: JobId, attempt: nat, status: PmStatus,
    token: Token, expiresAt: Time, completedAt: Option<Time>)

  type PmTable = map<MessageId, ProcessedMessage>

  datatype ClaimResult = Granted | AlreadyDone | LeaseHeld | TakenOver | Resumed | Conflict

  predicate GivesLease(r: ClaimResult) {
    r == Granted || r == TakenOver || r == Resumed
  }

  // uq_pm_type_job: at most one row per message type and job.
  ghost predicate UniqueJobs(t: PmTable) {
    forall m, n :: m in t && n in t && t[m].kind == t[n].kind && t[m].jobId == t[n].jobId ==> m == n
  }

  predicate SameJob(row: ProcessedMessage, kind: Kind, jobId: JobId) {
    row.kind == kind && row.jobId == jobId
  }

  predicate LeaseLive(row: ProcessedMessage, clock: Time) {
    row.status == Processing && clock < row.expiresAt
  }

  // The verdict of Claim; clock is the time read inside the transaction.
  function Verdict(t: PmTable, m: MessageId, kind: Kind, jobId: JobId, clock: Time): ClaimResult {
    if m !in t then
      if exists n :: n in t && SameJob(t[n], kind, jobId) && t[n].status == Completed then AlreadyDone
      else if exists n :: n in t && SameJob(t[n], kind, jobId) then Conflict
      else Granted
    else if !SameJob(t[m], kind, jobId) then Conflict
    else match t[m].status
      case Completed => AlreadyDone
      case RetryScheduled => Resumed
      case Processing => if clock < t[m].expiresAt then LeaseHeld else TakenOver
  }

  // The table after Claim; now is the time the caller read before the transaction.
  function Claimed(t: PmTable, m: MessageId, kind: Kind, jobId: JobId, attempt: nat,
                   now: Time, clock: Time, lease: Token): PmTable
  {
    match Verdict(t, m, kind, jobId, clock)
    case Granted =>
      t[m := ProcessedMessage(kind, jobId, attempt, Processing, lease, now + LEASE_TTL, None)]
    case Resumed =>
      t[m := t[m].(status := Processing, token := lease, expiresAt := now + LEASE_TTL)]
    case TakenOver =>
      t[m := t[m].(token := lease, expiresAt := now + LEASE_TTL)]
    case _ => t
  }

  predicate Holds(t: PmTable, m: MessageId, token: Token) {
    m in t && t[m].token == token
  }

  predicate HoldsProcessing(t: PmTable, m: MessageId, token: Token) {
    Holds(t, m, token) && t[m].status == Processing
  }

  function Renewed(t: PmTable, m: MessageId, token: Token, now: Time): PmTable {
    if HoldsProcessing(t, m, token) then t[m := t[m].(expiresAt := now + LEASE_TTL)] else t
  }

  function MarkedRetry(t: PmTable, m: MessageId, token: Token): PmTable {
    if HoldsProcessing(t, m, token) then t[m := t[m].(status := RetryScheduled)] else t
  }

  // No status guard, as in the source.
  function MarkedCompleted(t: PmTable, m: MessageId, token: Token, now: Time): PmTable {
    if Holds(t, m, token) then t[m := t[m].(status := Completed, completedAt := Some(now))] else t
  }

  class ProcessedMessages {
    var rows: PmTable
    var nextToken: Token  // newLeaseToken: a token never handed out before

    ghost predicate Valid() reads this {
      && UniqueJobs(rows)
      && forall m :: m in rows ==> rows[m].token < nextToken
    }

    constructor ()
      ensures Valid() && rows == map[]
    {
      rows, nextToken := map[], 0;
    }

    method Claim(m: MessageId, kind: Kind, jobId: JobId, attempt: nat, now: Time, clock: Time)
      returns (token: Option<Token>, result: ClaimResult)
      requires Valid()
      modifies this
      ensures Valid()
      ensures result == Verdict(old(rows), m, kind, jobId, clock)
      ensures token == (if GivesLease(result) then Some(old(nextToken)) else None) && nextToken == old(nextToken) + 1
      ensures rows == Claimed(old(rows), m, kind, jobId, attempt, now, clock, old(nextToken))
    {
      var lease := nextToken;
      nextToken := nextToken + 1;
      if m !in rows {
        if n :| n in rows && SameJob(rows[n], kind, jobId) {
          // the insert violates uq_pm_type_job
          result := HandleConflictingRow(n, m);
          return None, result;
        }
        rows := rows[m := ProcessedMessage(kind, jobId, attempt, Processing, lease, now + LEASE_TTL, None)];
        return Some(lease), Granted;
      }
      if !SameJob(rows[m], kind, jobId) {
        return None, Conflict;
      }
      token, result := HandleExistingRow(m, lease, now + LEASE_TTL, clock);
    }

    method HandleExistingRow(m: MessageId, lease: Token, expires: Time, clock: Time)
      returns (token: Option<Token>, result: ClaimResult)
      requires m in rows
      modifies this`rows
      ensures result == Verdict(old(rows), m, old(rows)[m].kind, old(rows)[m].jobId, clock)
      ensures token == if GivesLease(result) then Some(lease) else None
      ensures rows == if result == Resumed || result == TakenOver
                      then old(rows)[m := old(rows)[m].(status := Processing, token := lease, expiresAt := expires)]
                      else old(rows)
    {
      match rows[m].status {
        case Completed =>
          return None, AlreadyDone;
        case RetryScheduled =>
          rows := rows[m := rows[m].(status := Processing, token := lease, expiresAt := expires)];
          return Some(lease), Resumed;
        case Processing =>
          if clock < rows[m].expiresAt {
            return None, LeaseHeld;
          }
          rows := rows[m := rows[m].(token := lease, expiresAt := expires)];
          return Some(lease), TakenOver;
      }
    }

    // The job of a new message m already belongs to the message n: what a claim of m says.
    method HandleConflictingRow(n: MessageId, ghost m: MessageId) returns (result: ClaimResult)
      requires Valid() && n in rows && m !in rows
      ensures forall clock :: result == Verdict(rows, m, rows[n].kind, rows[n].jobId, clock)
    {
      assert forall k :: k in rows && SameJob(rows[k], rows[n].kind, rows[n].jobId) ==> k == n;
      if rows[n].status == Completed {
        return AlreadyDone;
      }
      return Conflict;
    }

    // The three authenticated writes report ErrLeaseLost as ok == false.
    method Renew(m: MessageId, token: Token, now: Time) returns (ok: bool)
      modifies this`rows
      ensures old(Valid()) ==> Valid()
      ensures ok == HoldsProcessing(old(rows), m, token)
      ensures ok <==> m in old(rows) && old(rows)[m].token == token && old(rows)[m].status == Processing
      ensures rows == Renewed(old(rows), m, token, now)
      ensures rows == if ok then old(rows)[m := old(rows)[m].(expiresAt := now + LEASE_TTL)] else old(rows)
    {
      ok := m in rows && rows[m].token == token && rows[m].status == Processing;
      if ok {
        rows := rows[m := rows[m].(expiresAt := now + LEASE_TTL)];
      }
    }

    method MarkRetryScheduled(m: MessageId, token: Token) returns (ok: bool)
      modifies this`rows
      ensures old(Valid()) ==> Valid()
      ensures ok == HoldsProcessing(old(rows), m, token)
      ensures ok <==> m in old(rows) && old(rows)[m].token == token && old(rows)[m].status == Processing
      ensures rows == MarkedRetry(old(rows), m, token)
      ensures rows == if ok then old(rows)[m := old(rows)[m].(status := RetryScheduled)] else old(rows)
    {
      ok := m in rows && rows[m].token == token && rows[m].status == Processing;
      if ok {
        rows := rows[m := rows[m].(status := RetryScheduled)];
      }
    }

    method MarkCompleted(m: MessageId, token: Token, now: Time) returns (ok: bool)
      modifies this`rows
      ensures old(Valid()) ==> Valid()
      ensures ok == Holds(old(rows), m, token)
      ensures ok <==> m in old(rows) && old(rows)[m].token == token
      ensures rows == MarkedCompleted(old(rows), m, token, now)
      ensures rows == if ok then old(rows)[m := old(rows)[m].(status := Completed, completedAt := Some(now))] else old(rows)
    {
      ok := m in rows && rows[m].token == token;
      if ok {
        rows := rows[m := rows[m].(status := Completed, completedAt := Some(now))];
      }
    }
  }

  // A claim hands out a lease only where no unexpired lease stands, and the
  // lease it hands out is the only change it makes.
  lemma ClaimRespectsLiveLease(t: PmTable, m: MessageId, kind: Kind, jobId: JobId, attempt: nat,
                               now: Time, clock: Time, lease: Token)
    requires UniqueJobs(t)
    ensures UniqueJobs(Claimed(t, m, kind, jobId, attempt, now, clock, lease))
    ensures GivesLease(Verdict(t, m, kind, jobId, clock)) <==>
              (forall n :: n in t && SameJob(t[n], kind, jobId) ==>
                 n == m && t[n].status != Completed && !LeaseLive(t[n], clock))
              && (m in t ==> SameJob(t[m], kind, jobId))
    ensures GivesLease(Verdict(t, m, kind, jobId, clock)) ==>
              HoldsProcessing(Claimed(t, m, kind, jobId, attempt, now, clock, lease), m, lease)
  {
    var t' := Claimed(t, m, kind, jobId, attempt, now, clock, lease);
    assert forall n :: n in t' && n != m ==> n in t && t'[n] == t[n];
    assert m in t ==> m in t' && t'[m].kind == t[m].kind && t'[m].jobId == t[m].jobId;
  }

  // Each verdict by what the table holds: the row of this message, or of another message
  // for the same job.
  lemma VerdictIff(t: PmTable, m: MessageId, kind: Kind, jobId: JobId, clock: Time)
    requires UniqueJobs(t)
    ensures var v := Verdict(t, m, kind, jobId, clock);
            var own := m in t && t[m].kind == kind && t[m].jobId == jobId;
            && (v == Granted <==> m !in t && forall n :: n in t ==> t[n].kind != kind || t[n].jobId != jobId)
            && (v == Resumed <==> own && t[m].status == RetryScheduled)
            && (v == LeaseHeld <==> own && t[m].status == Processing && clock < t[m].expiresAt)
            && (v == TakenOver <==> own && t[m].status == Processing && t[m].expiresAt <= clock)
            && (v == AlreadyDone <==>
                  && (m in t ==> own)
                  && exists n :: n in t && t[n].kind == kind && t[n].jobId == jobId && t[n].status == Completed)
            && (v == Conflict <==>
                  if m in t then !own
                  else exists n :: n in t && t[n].kind == kind && t[n].jobId == jobId && t[n].status != Completed)
  {
  }

  // What later claims of the job's message see: a granted or renewed lease protects for
  // LEASE_TTL and no longer, a scheduled retry can be resumed, a completed row is done.
  lemma LaterClaimsSee(t: PmTable, m: MessageId, token: Token, now: Time, clock: Time)
    requires HoldsProcessing(t, m, token)
    ensures Verdict(Renewed(t, m, token, now), m, t[m].kind, t[m].jobId, clock)
              == if clock < now + LEASE_TTL then LeaseHeld else TakenOver
    ensures Verdict(MarkedRetry(t, m, token), m, t[m].kind, t[m].jobId, clock) == Resumed
    ensures Verdict(MarkedCompleted(t, m, token, now), m, t[m].kind, t[m].jobId, clock) == AlreadyDone
  {
  }

  lemma FreshLeaseProtects(t: PmTable, m: MessageId, kind: Kind, jobId: JobId, attempt: nat,
                           now: Time, clock: Time, lease: Token, later: Time)
    requires GivesLease(Verdict(t, m, kind, jobId, clock))
    ensures Verdict(Claimed(t, m, kind, jobId, attempt, now, clock, lease), m, kind, jobId, later)
              == if later < now + LEASE_TTL then LeaseHeld else TakenOver
  {
  }
}
