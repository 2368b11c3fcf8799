// internal/queryjob/message.go, the message builders of publisher.go and
// dispatcher.go, and extractAttempt of consumer.go.
module Messages {
  import opened Options

  const MESSAGE_VERSION := 1
  const MAX_SANE_ATTEMPT := 100

  type Time = nat   // nanoseconds
  type JobId = nat
  type MessageId = nat

  datatype Kind = QueryExecutionRequested | OtherKind

  // The value found under x-attempt; anything but an AMQP int32 is Foreign.
  datatype Header = Int32(v: int) | Foreign

  datatype Message = Message(
    messageId: MessageId, kind: Kind, version: int, jobId: JobId, attempt: Option<Header>)

  function WrapInt32(n: int): int {
    (n + 0x8000_0000) % 0x1_0000_0000 - 0x8000_0000
  }

  function WrapUint8(n: int): nat {
    n % 0x100
  }

  // None: the header is rejected.
  function ExtractAttempt(h: Option<Header>): Option<nat> {
    match h
    case None => Some(0)
    case Some(Foreign) => None
    case Some(Int32(v)) =>
      if v < 0 || v > MAX_SANE_ATTEMPT then None else Some(v)
  }

  // buildWorkerPublishing: retry and dead-letter copies keep the message id.
  function WorkerMessage(jobId: JobId, messageId: MessageId, attempt: int): Message {
    Message(messageId, QueryExecutionRequested, MESSAGE_VERSION, jobId, Some(Int32(WrapInt32(attempt))))
  }

  // publishOutbox: rebuilt from the row, never an x-attempt header.
  function OutboxMessage(jobId: JobId, messageId: MessageId): Message {
    Message(messageId, QueryExecutionRequested, MESSAGE_VERSION, jobId, None)
  }

  // Steps 1-3 of Consumer.handle. A message that fails here goes to the DLQ unclaimed.
  predicate ValidEnvelope(m: Message) {
    && m.kind == QueryExecutionRequested
    && m.version == MESSAGE_VERSION
    && m.jobId != 0
    && ExtractAttempt(m.attempt).Some?
  }

  // Exactly two shapes pass: what a dispatcher publishes, and what a worker publishes for
  // an attempt up to the sane bound, both for a real job.
  lemma EnvelopeIff(m: Message)
    ensures ValidEnvelope(m) <==>
              m.jobId != 0
              && (|| m == OutboxMessage(m.jobId, m.messageId)
                  || exists a: nat :: a <= MAX_SANE_ATTEMPT && m == WorkerMessage(m.jobId, m.messageId, a))
    ensures OutboxMessage(m.jobId, m.messageId).attempt == None
    ensures ValidEnvelope(m) ==>
              if m.attempt == None then ExtractAttempt(m.attempt) == Some(0)
              else m == WorkerMessage(m.jobId, m.messageId, ExtractAttempt(m.attempt).value)
  {
    forall a: nat | a <= MAX_SANE_ATTEMPT ensures WorkerMessage(m.jobId, m.messageId, a).attempt == Some(Int32(a)) {
    }
    if ValidEnvelope(m) && m.attempt.Some? {
      var a: nat := m.attempt.value.v;
      assert m == WorkerMessage(m.jobId, m.messageId, a);
    }
  }

  // The header a worker writes for its next retry, after both integer conversions.
  function NextAttempt(attempt: nat): nat {
    WrapUint8(attempt + 1)
  }

  // Every retry a worker may schedule survives uint8, int32 and extractAttempt
  // unchanged exactly when the configured limit is at most the sane bound.
  lemma RetryHeadersSurvive(maxRetries: int, j: JobId, m: MessageId)
    ensures
      (forall a: nat :: a <= MAX_SANE_ATTEMPT && a + 1 <= maxRetries ==>
        ExtractAttempt(WorkerMessage(j, m, NextAttempt(a)).attempt) == Some(a + 1))
      <==> maxRetries <= MAX_SANE_ATTEMPT
  {
    if maxRetries > MAX_SANE_ATTEMPT {
      var a: nat := MAX_SANE_ATTEMPT;
      assert ExtractAttempt(WorkerMessage(j, m, NextAttempt(a)).attempt) == None;
    }
  }
}
