/** The UUID module's sequence generator: one MERGE ... SET query that
    creates the counter node (label SequenceMetadata, id 0) on first use and
    stores `coalesce(sequence, 0) + 1`, retried on deadlock. */
module UuidSequence {
  import opened Wrappers
  import opened Host

  /** How often a deadlocked attempt is retried. */
  const MaxRetries: nat := 100

  /** What the store does with one attempt at running the query. */
  datatype AttemptFault = NoFault | DeadlockDetected | OtherFailure

  /** The cause wrapped in the RuntimeException the generator throws. */
  datatype Cause = Deadlock | QueryFailure | LongOverflow

  /** The counter a successful query stores: `coalesce(sequence, 0) + 1`;
      Cypher integer arithmetic raises an error instead of wrapping. */
  function NextSequence(current: Option<Long>): (r: Result<Long, Cause>)
    ensures current.None? ==> r == Ok(1)
    ensures current.Some? && current.value < MaxLong ==> r == Ok(current.value + 1)
    ensures current.Some? && current.value == MaxLong ==> r == Err(LongOverflow)
  {
    var base := if current.Some? then current.value else 0;
    if base == MaxLong then Err(LongOverflow) else Ok(base + 1)
  }

  /** The outcome of `generateUuid(currentRetry)`: the returned string or
      the failure, the counter left in the store, and how many attempts the
      query took in total (counting from the first call). */
  datatype Generation = Generation(result: Result<string, Cause>, sequence: Option<Long>, attempts: nat)

  /** `generateUuid(currentRetry)`. `faults(k)` says how attempt `k` of the
      query ends; a failed attempt is rolled back and leaves the counter
      untouched. */
  function Attempts(sequence: Option<Long>, currentRetry: nat, faults: nat -> AttemptFault): (g: Generation)
    decreases if currentRetry <= MaxRetries then MaxRetries - currentRetry else 0
  {
    match faults(currentRetry)
    case NoFault =>
      (match NextSequence(sequence)
       case Ok(n) => Generation(Ok(DecimalString(n)), Some(n), currentRetry + 1)
       case Err(c) => Generation(Err(c), sequence, currentRetry + 1))
    case DeadlockDetected =>
      if currentRetry < MaxRetries then Attempts(sequence, currentRetry + 1, faults)
      else Generation(Err(Deadlock), sequence, currentRetry + 1)
    case OtherFailure => Generation(Err(QueryFailure), sequence, currentRetry + 1)
  }

  /** The query is attempted at most MaxRetries + 1 times in all. */
  lemma {:induction false} AttemptsBounded(sequence: Option<Long>, currentRetry: nat, faults: nat -> AttemptFault)
    requires currentRetry <= MaxRetries
    ensures currentRetry < Attempts(sequence, currentRetry, faults).attempts <= MaxRetries + 1
    decreases MaxRetries - currentRetry
  {
    if faults(currentRetry).DeadlockDetected? && currentRetry < MaxRetries {
      AttemptsBounded(sequence, currentRetry + 1, faults);
    }
  }

  /** A deadlock on every remaining attempt exhausts the retries: the call
      fails after exactly MaxRetries + 1 attempts and the counter is kept. */
  lemma {:induction false} PersistentDeadlockFails(sequence: Option<Long>, currentRetry: nat, faults: nat -> AttemptFault)
    requires currentRetry <= MaxRetries
    requires forall k :: currentRetry <= k <= MaxRetries ==> faults(k) == DeadlockDetected
    ensures Attempts(sequence, currentRetry, faults) == Generation(Err(Deadlock), sequence, MaxRetries + 1)
    decreases MaxRetries - currentRetry
  {
    if currentRetry < MaxRetries {
      PersistentDeadlockFails(sequence, currentRetry + 1, faults);
    }
  }

  /** A failure other than a deadlock is not retried. */
  lemma OtherFailureNotRetried(sequence: Option<Long>, currentRetry: nat, faults: nat -> AttemptFault)
    requires faults(currentRetry) == OtherFailure
    ensures Attempts(sequence, currentRetry, faults) == Generation(Err(QueryFailure), sequence, currentRetry + 1)
  {
  }

  /** A call succeeds exactly when the counter advances: it then returns the
      decimal form of the new counter, which is one more than the old one (or
      1 on a fresh store); a failing call leaves the counter as it was. */
  lemma {:induction false} ResultIsNewCounter(sequence: Option<Long>, currentRetry: nat, faults: nat -> AttemptFault)
    ensures var g := Attempts(sequence, currentRetry, faults);
            g.result.Ok? ==> g.sequence.Some? && NextSequence(sequence) == Ok(g.sequence.value)
                             && g.result.value == DecimalString(g.sequence.value)
    ensures var g := Attempts(sequence, currentRetry, faults);
            g.result.Err? ==> g.sequence == sequence
    decreases if currentRetry <= MaxRetries then MaxRetries - currentRetry else 0
  {
    if faults(currentRetry).DeadlockDetected? && currentRetry < MaxRetries {
      ResultIsNewCounter(sequence, currentRetry + 1, faults);
    }
  }

  /** The first successful call on a fresh store returns "1". */
  lemma FreshStoreYieldsOne(faults: nat -> AttemptFault)
    requires Attempts(None, 0, faults).result.Ok?
    ensures Attempts(None, 0, faults).result.value == "1"
  {
    ResultIsNewCounter(None, 0, faults);
  }

  /** Two successive successful calls return the decimal forms of strictly
      increasing numbers, so the two strings differ. */
  lemma SuccessiveCallsIncrease(sequence: Option<Long>, faults1: nat -> AttemptFault, faults2: nat -> AttemptFault)
    requires Attempts(sequence, 0, faults1).result.Ok?
    requires Attempts(Attempts(sequence, 0, faults1).sequence, 0, faults2).result.Ok?
    ensures var g1 := Attempts(sequence, 0, faults1);
            var g2 := Attempts(g1.sequence, 0, faults2);
            g1.sequence.Some? && g2.sequence.Some? && g1.sequence.value < g2.sequence.value
            && g1.result.value == DecimalString(g1.sequence.value)
            && g2.result.value == DecimalString(g2.sequence.value)
            && g1.result.value != g2.result.value
  {
    var g1 := Attempts(sequence, 0, faults1);
    var g2 := Attempts(g1.sequence, 0, faults2);
    ResultIsNewCounter(sequence, 0, faults1);
    ResultIsNewCounter(g1.sequence, 0, faults2);
    DecimalStringInjective(g1.sequence.value, g2.sequence.value);
  }

  class SequenceIdGenerator {
    /** The "sequence" property of the SequenceMetadata node with id 0, or
        None while that node or property does not exist. */
    var sequence: Option<Long>
    /** How each attempt of the query ends (the store's behaviour). */
    const faults: nat -> AttemptFault

    constructor (sequence: Option<Long>, faults: nat -> AttemptFault)
      ensures this.sequence == sequence && this.faults == faults
    {
      this.sequence := sequence;
      this.faults := faults;
    }

    /** `generateUuid(currentRetry)`: run the query; on a deadlock retry
        while `currentRetry < MaxRetries`, otherwise fail with the cause. */
    method GenerateUuidFrom(currentRetry: nat) returns (r: Result<string, Cause>)
      modifies this
      ensures r == Attempts(old(sequence), currentRetry, faults).result
      ensures sequence == Attempts(old(sequence), currentRetry, faults).sequence
      decreases if currentRetry <= MaxRetries then MaxRetries - currentRetry else 0
    {
      match faults(currentRetry)
      case NoFault =>
        var next := NextSequence(sequence);
        if next.Ok? {
          sequence := Some(next.value);
          r := Ok(DecimalString(next.value));
        } else {
          r := Err(next.error);
        }
      case DeadlockDetected =>
        if currentRetry < MaxRetries {
          r := GenerateUuidFrom(currentRetry + 1);
        } else {
          r := Err(Deadlock);
        }
      case OtherFailure =>
        r := Err(QueryFailure);
    }

    /** `generateUuid()`: the first attempt has retry count 0. */
    method GenerateUuid() returns (r: Result<string, Cause>)
      modifies this
      ensures r == Attempts(old(sequence), 0, faults).result
      ensures sequence == Attempts(old(sequence), 0, faults).sequence
    {
      r := GenerateUuidFrom(0);
    }
  }
}
