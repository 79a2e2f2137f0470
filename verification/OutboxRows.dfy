/**
 * One row of outbox_events: the status changes made by create, claim, recover, mark_published
 * and mark_failed, and the ORM object on which the last two work in place.
 */
module OutboxRows {
  import opened Prelude
  import opened LedgerTables

  const MAX_RETRIES: nat := 5
  const MAX_RETRY_DELAY: nat := 60
  const SECOND: nat := 1_000_000  // datetimes count microseconds
  const CLAIM_TIMEOUT: nat := 30 * SECOND

  datatype Status = Pending | Processing | Published | Failed

  datatype Row = Row(
    event: Event,
    createdAt: int,
    status: Status,
    retryCount: nat,
    nextRetryAt: Option<int>,
    claimedAt: Option<int>,
    publishedAt: Option<int>,
    lastError: Option<string>)

  function NewRow(event: Event, createdAt: int): Row {
    Row(event, createdAt, Pending, 0, None, None, None, None)
  }

  function Claimed(r: Row, now: int): Row {
    r.(status := Processing, claimedAt := Some(now))
  }

  function Recovered(r: Row): Row {
    r.(status := Pending, claimedAt := None)
  }

  function Pow2(n: nat): nat {
    if n == 0 then 1 else 2 * Pow2(n - 1)
  }

  function RetryDelay(retryCount: nat): nat {
    if Pow2(retryCount) < MAX_RETRY_DELAY then Pow2(retryCount) else MAX_RETRY_DELAY
  }

  function MarkedPublished(r: Row, now: int): Row {
    r.(status := Published, publishedAt := Some(now), lastError := None, nextRetryAt := None, claimedAt := None)
  }

  function MarkedFailed(r: Row, error: string, now: int): Row {
    var n := r.retryCount + 1;
    var r' := r.(retryCount := n, lastError := Some(if |error| <= 1000 then error else error[..1000]),
      claimedAt := None);
    if n >= MAX_RETRIES then r'.(status := Failed, nextRetryAt := None)
    else r'.(status := Pending, nextRetryAt := Some(now + RetryDelay(n) * SECOND))
  }

  predicate Due(r: Row, now: int) {
    r.status == Pending && (r.nextRetryAt.None? || r.nextRetryAt.value <= now)
  }

  predicate Stale(r: Row, now: int) {
    r.status == Processing && r.claimedAt.Some? && r.claimedAt.value <= now - CLAIM_TIMEOUT
  }

  predicate Terminal(r: Row) { r.status == Published || r.status == Failed }

  // ---------------------------------------------------------------- the row invariant

  /** What the columns say together, whoever wrote them last. */
  predicate Coherent(r: Row) {
    && (r.status == Processing <==> r.claimedAt.Some?)
    && (r.status == Pending || r.status == Processing ==>
          r.retryCount < MAX_RETRIES && (r.nextRetryAt.Some? <==> r.retryCount > 0))
    && (Terminal(r) ==> r.nextRetryAt.None?)
    && (r.status == Failed ==> r.retryCount >= MAX_RETRIES)
  }

  /** Both marks keep a row coherent whatever its status was: neither looks at it first. */
  lemma MarksKeepCoherence(r: Row, error: string, now: int)
    ensures Coherent(MarkedPublished(r, now))
    ensures Coherent(MarkedFailed(r, error, now))
  {
  }

  lemma DelaysDouble()
    ensures Pow2(1) == 2 && Pow2(2) == 4 && Pow2(3) == 8 && Pow2(4) == 16
  {
  }

  /** A retry waits 2, 4, 8 or 16 seconds: the 60-second cap is never reached. */
  lemma BackoffNeverCapped(r: Row, error: string, now: int)
    ensures var r' := MarkedFailed(r, error, now);
      r'.status == Pending ==>
        && 1 <= r'.retryCount <= 4
        && r'.nextRetryAt == Some(now + Pow2(r'.retryCount) * SECOND)
        && Pow2(r'.retryCount) in {2, 4, 8, 16}
  {
    DelaysDouble();
  }

  // ---------------------------------------------------------------- the mapped object

  /** The ORM object: mark_published and mark_failed assign its attributes one by one. */
  class OutboxEvent {
    const event: Event
    const createdAt: int
    var status: Status
    var retryCount: nat
    var nextRetryAt: Option<int>
    var claimedAt: Option<int>
    var publishedAt: Option<int>
    var lastError: Option<string>

    constructor Load(r: Row)
      ensures Columns() == r
    {
      event, createdAt := r.event, r.createdAt;
      status, retryCount, nextRetryAt := r.status, r.retryCount, r.nextRetryAt;
      claimedAt, publishedAt, lastError := r.claimedAt, r.publishedAt, r.lastError;
    }

    function Columns(): Row
      reads this
    {
      Row(event, createdAt, status, retryCount, nextRetryAt, claimedAt, publishedAt, lastError)
    }

    method MarkPublished(now: int)
      modifies this
      ensures Columns() == MarkedPublished(old(Columns()), now)
      ensures status == Published && publishedAt == Some(now)
      ensures lastError == None && nextRetryAt == None && claimedAt == None && retryCount == old(retryCount)
    {
      status := Published;
      publishedAt := Some(now);
      lastError := None;
      nextRetryAt := None;
      claimedAt := None;
    }

    method MarkFailed(error: string, now: int)
      modifies this
      ensures Columns() == MarkedFailed(old(Columns()), error, now)
      ensures retryCount == old(retryCount) + 1 && claimedAt == None && publishedAt == old(publishedAt)
      ensures lastError.Some? && lastError.value <= error
              && |lastError.value| == (if |error| < 1000 then |error| else 1000)
      ensures status == Failed <==> retryCount >= 5
      ensures status == Pending <==> retryCount < 5
      ensures nextRetryAt.Some? <==> retryCount < 5
      ensures nextRetryAt.Some? ==>
        nextRetryAt.value - now ==
          (if retryCount == 1 then 2_000_000 else if retryCount == 2 then 4_000_000
           else if retryCount == 3 then 8_000_000 else 16_000_000)
    {
      DelaysDouble();
      retryCount := retryCount + 1;
      lastError := Some(if |error| <= 1000 then error else error[..1000]);
      claimedAt := None;
      if retryCount >= MAX_RETRIES {
        status := Failed;
        nextRetryAt := None;
        return;
      }
      var delay := if Pow2(retryCount) < MAX_RETRY_DELAY then Pow2(retryCount) else MAX_RETRY_DELAY;
      status := Pending;
      nextRetryAt := Some(now + delay * SECOND);
    }
  }
}
