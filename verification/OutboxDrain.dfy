/**
 * How long one worker that does not crash needs to drain the outbox, whatever the broker does:
 * n pending events are all PUBLISHED or FAILED after at most 5n/limit + 5 rounds, provided each
 * round starts once every retry is due.
 */
module OutboxDrain {
  import opened Prelude
  import opened LedgerTables
  import opened OutboxRows
  import opened OutboxMachine
  import opened OutboxWorkers

  /** Between rounds of the only worker nothing is being processed. */
  ghost predicate Quiescent(rows: Rows) {
    forall id :: id in rows ==> rows[id].event.id == id && Coherent(rows[id]) && rows[id].status != Processing
  }

  function Live(rows: Rows): set<nat> {
    set id | id in rows && rows[id].status == Pending
  }

  /** One call of process_batch by the only worker, with every pending row due. */
  ghost predicate RoundOf(rows: Rows, rows': Rows, limit: nat, claimAt: int, claimed: seq<nat>, sent: seq<Event>,
                          answers: nat -> Answer) {
    && (forall id :: id in Live(rows) ==> Due(rows[id], claimAt))
    && ClaimedFrom(rows, {}, claimAt, limit, claimed, ClaimAll(rows, claimed, claimAt))
    && Contents(rows, claimed, sent)
    && rows' == RowsAfter(ClaimAll(rows, claimed, claimAt), sent, answers)
  }

  ghost predicate Round(rows: Rows, rows': Rows, limit: nat) {
    exists claimAt, claimed, sent, answers :: RoundOf(rows, rows', limit, claimAt, claimed, sent, answers)
  }

  /** Nobody else locks rows, and every pending row is due when the batch claims. */
  ghost predicate AloneAndDue(rows: Rows, poll: Poll) {
    poll.sweepLocked == {} && poll.claimLocked == {} && forall id :: id in Live(rows) ==> Due(rows[id], poll.claimAt)
  }

  /** There is nothing stale to recover. */
  lemma NothingRecovered(rows: Rows, locked: set<nat>, now: int, limit: nat, stale: seq<nat>, rows': Rows)
    requires Quiescent(rows) && RecoveredFrom(rows, locked, now, limit, stale, rows')
    ensures stale == [] && rows' == rows
  {
    assert StaleIds(rows, now) == {};
    assert forall id :: id in stale ==> id in StaleIds(rows, now);
  }

  /** process_batch's postcondition is a round. */
  lemma BatchIsARound(rows: Rows, rows': Rows, limit: nat, poll: Poll)
    requires Quiescent(rows) && AloneAndDue(rows, poll) && Batch(rows, rows', limit, poll)
    ensures Round(rows, rows', limit)
  {
    var stale, claimed, sent :| BatchFrom(rows, rows', limit, poll, stale, claimed, sent);
    NothingRecovered(rows, poll.sweepLocked, poll.sweepAt, limit, stale, RecoverAll(rows, stale));
    assert RoundOf(rows, rows', limit, poll.claimAt, claimed, sent, poll.answers);
  }

  // ---------------------------------------------------------------- effect of one round

  lemma {:induction false} MarksHitTheirOwnRow(rows: Rows, batch: seq<Event>, answers: nat -> Answer, id: nat)
    requires id in rows && forall i, j :: 0 <= i < j < |batch| ==> batch[i].id != batch[j].id
    ensures var rows' := RowsAfter(rows, batch, answers);
      && rows'.Keys == rows.Keys
      && rows'[id] == if exists e :: e in batch && e.id == id then AfterMark(rows, id, answers(id))[id] else rows[id]
  {
    if batch != [] {
      var init, last := batch[..|batch| - 1], batch[|batch| - 1];
      MarksHitTheirOwnRow(rows, init, answers, id);
      assert batch == init + [last];
      assert forall e :: e in batch <==> e in init || e == last;
    }
  }

  function MarkedBy(r: Row, a: Answer): Row {
    if a.reply.Acked? then MarkedPublished(r, a.at) else MarkedFailed(r, a.reply.error, a.at)
  }

  lemma SentInOrder(rows: Rows, claimed: seq<nat>, sent: seq<Event>)
    requires Quiescent(rows) && Contents(rows, claimed, sent) && Distinct(claimed)
    ensures forall i :: 0 <= i < |sent| ==> sent[i].id == claimed[i]
    ensures forall i, j :: 0 <= i < j < |sent| ==> sent[i].id != sent[j].id
    ensures forall id :: (exists e :: e in sent && e.id == id) <==> id in claimed
  {
    forall i | 0 <= i < |sent| ensures sent[i].id == claimed[i] { assert claimed[i] in rows; }
    forall id | id in claimed ensures exists e :: e in sent && e.id == id {
      var k :| 0 <= k < |claimed| && claimed[k] == id;
      assert sent[k] in sent;
    }
  }

  lemma BatchRow(rows: Rows, claimed: seq<nat>, claimAt: int, sent: seq<Event>, answers: nat -> Answer, id: nat)
    requires Quiescent(rows) && Contents(rows, claimed, sent) && Distinct(claimed) && id in rows
    ensures var rows' := RowsAfter(ClaimAll(rows, claimed, claimAt), sent, answers);
      && id in rows'
      && rows'[id] == if id in claimed then MarkedBy(Claimed(rows[id], claimAt), answers(id)) else rows[id]
  {
    SentInOrder(rows, claimed, sent);
    MarksHitTheirOwnRow(ClaimAll(rows, claimed, claimAt), sent, answers, id);
  }

  lemma RoundRow(rows: Rows, rows': Rows, limit: nat, claimAt: int, claimed: seq<nat>, sent: seq<Event>,
                 answers: nat -> Answer, id: nat)
    requires Quiescent(rows) && RoundOf(rows, rows', limit, claimAt, claimed, sent, answers) && id in rows
    ensures id in rows'
    ensures if id in claimed then rows[id].status == Pending
      && rows'[id] == MarkedBy(Claimed(rows[id], claimAt), answers(id))
            else rows'[id] == rows[id]
  {
    BatchRow(rows, claimed, claimAt, sent, answers, id);
  }

  /** Attempts an event has left before it is FAILED, 0 once it is finished. */
  function AttemptsLeft(r: Row): nat {
    if r.status == Pending && r.retryCount <= MAX_RETRIES then MAX_RETRIES - r.retryCount else 0
  }

  function Remaining(rows: Rows, id: nat): nat {
    if id in rows then AttemptsLeft(rows[id]) else 0
  }

  /** Whatever the broker answers, a claimed event is finished or has one attempt less. */
  lemma MarkUsesAttempt(r: Row, claimAt: int, a: Answer)
    requires Coherent(r) && r.status == Pending
    ensures var r' := MarkedBy(Claimed(r, claimAt), a);
      && r'.event == r.event && Coherent(r') && r'.status != Processing
      && AttemptsLeft(r') < AttemptsLeft(r)
      && (r'.status == Pending ==> r'.retryCount == r.retryCount + 1)
  {
    MarksKeepCoherence(Claimed(r, claimAt), if a.reply.Acked? then "" else a.reply.error, a.at);
  }

  /** A claimed event uses an attempt up; every other row stays as it is. */
  ghost predicate Progressed(r: Row, r': Row, claimed: bool) {
    && r'.event == r.event && Coherent(r') && r'.status != Processing
    && (if claimed then
          && r.status == Pending && AttemptsLeft(r') < AttemptsLeft(r)
          && (r'.status == Pending ==> r'.retryCount == r.retryCount + 1)
        else r' == r)
  }

  lemma RoundProgress(rows: Rows, rows': Rows, limit: nat, claimAt: int, claimed: seq<nat>, sent: seq<Event>,
                      answers: nat -> Answer, id: nat)
    requires Quiescent(rows) && RoundOf(rows, rows', limit, claimAt, claimed, sent, answers) && id in rows
    ensures id in rows' && Progressed(rows[id], rows'[id], id in Elements(claimed))
  {
    RoundRow(rows, rows', limit, claimAt, claimed, sent, answers, id);
    if id in claimed {
      MarkUsesAttempt(rows[id], claimAt, answers(id));
    }
  }

  // ---------------------------------------------------------------- the measure

  ghost function Sum(rows: Rows, ids: set<nat>): nat {
    if ids == {} then 0
    else Remaining(rows, Pick(ids)) + Sum(rows, ids - {Pick(ids)})
  }

  lemma {:induction false} SumDrops(rows: Rows, rows': Rows, ids: set<nat>, claimed: set<nat>)
    requires forall id :: id in ids ==> Remaining(rows', id) + (if id in claimed then 1 else 0) <= Remaining(rows, id)
    ensures Sum(rows', ids) + |ids * claimed| <= Sum(rows, ids)
    decreases ids
  {
    if ids != {} {
      var x := Pick(ids);
      SumDrops(rows, rows', ids - {x}, claimed);
      if x in claimed {
        assert ids * claimed == ((ids - {x}) * claimed) + {x};
      } else {
        assert ids * claimed == (ids - {x}) * claimed;
      }
    }
  }

  lemma {:induction false} SumAtMost(rows: Rows, ids: set<nat>)
    ensures Sum(rows, ids) <= MAX_RETRIES * |ids * Live(rows)|
    decreases ids
  {
    if ids != {} {
      var x := Pick(ids);
      SumAtMost(rows, ids - {x});
      if x in Live(rows) {
        assert ids * Live(rows) == ((ids - {x}) * Live(rows)) + {x};
      } else {
        assert ids * Live(rows) == (ids - {x}) * Live(rows);
      }
    }
  }

  /** A batch is full, or it is everything that is live. */
  lemma RoundClaims(rows: Rows, rows': Rows, limit: nat, claimAt: int, claimed: seq<nat>, sent: seq<Event>,
                    answers: nat -> Answer)
    requires RoundOf(rows, rows', limit, claimAt, claimed, sent, answers)
    ensures Elements(claimed) <= Live(rows) && (|Elements(claimed)| == limit || Elements(claimed) == Live(rows))
    ensures rows'.Keys == rows.Keys
  {
    var taken := Elements(claimed);
    assert DueIds(rows, claimAt) - {} == Live(rows);
    DistinctSize(claimed);
    assert taken <= Live(rows);
    RowsAfterKeys(ClaimAll(rows, claimed, claimAt), sent, answers);
    FullSubset(taken, Live(rows));
  }

  lemma FullSubset(a: set<nat>, b: set<nat>)
    requires a <= b
    ensures |a| == |b| ==> a == b
  {
    assert b == a + (b - a);
  }

  lemma {:induction false} RowsAfterKeys(rows: Rows, batch: seq<Event>, answers: nat -> Answer)
    ensures RowsAfter(rows, batch, answers).Keys == rows.Keys
  {
    if batch != [] { RowsAfterKeys(rows, batch[..|batch| - 1], answers); }
  }

  ghost predicate AllProgressed(rows: Rows, rows': Rows, claimed: set<nat>) {
    rows'.Keys == rows.Keys && forall id :: id in rows ==> Progressed(rows[id], rows'[id], id in claimed)
  }

  lemma RoundKeepsShape(rows: Rows, rows': Rows, claimed: set<nat>)
    requires Quiescent(rows) && AllProgressed(rows, rows', claimed)
    ensures Quiescent(rows') && Live(rows') <= Live(rows)
    ensures forall id :: id in Live(rows') ==>
      rows'[id].retryCount >= rows[id].retryCount + if id in claimed then 1 else 0
  {
    forall id | id in rows'
      ensures rows'[id].event.id == id && Coherent(rows'[id]) && rows'[id].status != Processing
      ensures id in Live(rows') ==>
        id in Live(rows) && rows'[id].retryCount >= rows[id].retryCount + if id in claimed then 1 else 0
    {
      assert id in rows && Progressed(rows[id], rows'[id], id in claimed);
    }
  }

  lemma RoundSum(rows: Rows, rows': Rows, claimed: set<nat>)
    requires AllProgressed(rows, rows', claimed) && claimed <= rows.Keys
    ensures Sum(rows', rows.Keys) + |claimed| <= Sum(rows, rows.Keys)
  {
    forall id | id in rows ensures Remaining(rows', id) + (if id in claimed then 1 else 0) <= Remaining(rows, id) {
      assert id in rows' && Progressed(rows[id], rows'[id], id in claimed);
    }
    SumDrops(rows, rows', rows.Keys, claimed);
    assert rows.Keys * claimed == claimed;
  }

  /** A round either claims a full batch or claims every live event; each claim uses an attempt up. */
  lemma RoundMeasure(rows: Rows, rows': Rows, limit: nat)
    requires Quiescent(rows) && Round(rows, rows', limit)
    ensures rows'.Keys == rows.Keys && Quiescent(rows') && Live(rows') <= Live(rows)
    ensures forall id :: id in Live(rows') ==> rows'[id].retryCount >= rows[id].retryCount
    ensures Sum(rows', rows.Keys) <= Sum(rows, rows.Keys)
    ensures || Sum(rows', rows.Keys) + limit <= Sum(rows, rows.Keys)
            || forall id :: id in Live(rows') ==> rows'[id].retryCount >= rows[id].retryCount + 1
  {
    var claimAt, claimed, sent, answers :| RoundOf(rows, rows', limit, claimAt, claimed, sent, answers);
    RoundClaims(rows, rows', limit, claimAt, claimed, sent, answers);
    forall id | id in rows ensures id in rows' && Progressed(rows[id], rows'[id], id in Elements(claimed)) {
      RoundProgress(rows, rows', limit, claimAt, claimed, sent, answers, id);
    }
    RoundKeepsShape(rows, rows', Elements(claimed));
    RoundSum(rows, rows', Elements(claimed));
  }

  // ---------------------------------------------------------------- many rounds

  ghost predicate Rounds(h: seq<Rows>, limit: nat) {
    h != [] && Quiescent(h[0]) && forall i :: 0 <= i < |h| - 1 ==> Round(h[i], h[i + 1], limit)
  }

  /** After k rounds, `full` of them used `limit` attempts each and the others used one attempt of every live event. */
  lemma {:induction false} RoundsAdd(h: seq<Rows>, limit: nat) returns (full: nat, swept: nat)
    requires Rounds(h, limit)
    ensures full + swept == |h| - 1
    ensures var last := h[|h| - 1];
      && Quiescent(last) && last.Keys == h[0].Keys
      && Sum(last, h[0].Keys) + full * limit <= Sum(h[0], h[0].Keys)
      && forall id :: id in Live(last) ==> last[id].retryCount >= swept
  {
    if |h| == 1 {
      full, swept := 0, 0;
    } else {
      var init := h[..|h| - 1];
      full, swept := RoundsAdd(init, limit);
      var before, last := init[|init| - 1], h[|h| - 1];
      assert Round(h[|h| - 2], h[|h| - 2 + 1], limit);
      RoundMeasure(before, last, limit);
      if Sum(last, before.Keys) + limit <= Sum(before, before.Keys) {
        full := full + 1;
        assert full * limit == (full - 1) * limit + limit;
      } else {
        swept := swept + 1;
      }
    }
  }

  lemma TimesMonotone(a: nat, b: nat, c: nat)
    requires a <= b
    ensures a * c <= b * c
  {
  }

  lemma AtMostQuotient(full: nat, limit: nat, total: nat)
    requires limit >= 1 && full * limit <= total
    ensures full <= total / limit
  {
    var q := total / limit;
    assert total < (q + 1) * limit;
    if q + 1 <= full {
      TimesMonotone(q + 1, full, limit);
    }
  }

  /** n live events are all finished within 5n/limit + 5 rounds, whatever the sends do. */
  lemma OutboxDrains(h: seq<Rows>, limit: nat)
    requires Rounds(h, limit) && limit >= 1
    requires |h| - 1 >= MAX_RETRIES * |Live(h[0])| / limit + MAX_RETRIES
    ensures Live(h[|h| - 1]) == {} && h[|h| - 1].Keys == h[0].Keys
    ensures forall id :: id in h[0] ==> Terminal(h[|h| - 1][id])
  {
    var full, swept := RoundsAdd(h, limit);
    SumAtMost(h[0], h[0].Keys);
    assert h[0].Keys * Live(h[0]) == Live(h[0]);
    AtMostQuotient(full, limit, MAX_RETRIES * |Live(h[0])|);
    var last := h[|h| - 1];
    forall id | id in last ensures Terminal(last[id]) {
      assert Coherent(last[id]) && last[id].status != Processing;
      assert last[id].status == Pending <==> id in Live(last);
    }
  }

  /** Between the batches of OutboxWorker.run nothing is being processed, and each batch is a round. */
  lemma {:induction false} BatchIsQuiet(h: seq<Rows>, limit: nat, polls: nat -> Poll, k: nat)
    requires k < |h| && Quiescent(h[0])
    requires Batches(h, limit, polls) && forall i :: 0 <= i < |h| - 1 ==> AloneAndDue(h[i], polls(i))
    ensures Quiescent(h[k]) && (k < |h| - 1 ==> Round(h[k], h[k + 1], limit))
  {
    if k > 0 {
      BatchIsQuiet(h, limit, polls, k - 1);
      RoundMeasure(h[k - 1], h[k], limit);
    }
    if k < |h| - 1 { BatchIsARound(h[k], h[k + 1], limit, polls(k)); }
  }

  /**
   * The loop of OutboxWorker.run, alone and not sooner than the retries: everything is finished
   * after 5n/limit + 5 batches.
   */
  lemma WorkerDrainsOutbox(h: seq<Rows>, limit: nat, polls: nat -> Poll)
    requires h != [] && Quiescent(h[0]) && limit >= 1
    requires Batches(h, limit, polls) && forall i :: 0 <= i < |h| - 1 ==> AloneAndDue(h[i], polls(i))
    requires |h| - 1 >= MAX_RETRIES * |Live(h[0])| / limit + MAX_RETRIES
    ensures h[|h| - 1].Keys == h[0].Keys && forall id :: id in h[0] ==> Terminal(h[|h| - 1][id])
  {
    forall k | 0 <= k < |h| - 1 ensures Round(h[k], h[k + 1], limit) { BatchIsQuiet(h, limit, polls, k); }
    OutboxDrains(h, limit);
  }
}
