/**
 * The outbox worker as it is written: claim and recover queries over the table, and
 * `process_batch`, which recovers, claims, then sends and marks the claimed events one by one.
 * Each is proved against the row functions, and the whole batch against the lease protocol.
 */
module OutboxWorkers {
  import opened Prelude
  import opened LedgerTables
  import opened OutboxRows
  import opened OutboxMachine

  // ---------------------------------------------------------------- ORDER BY ... LIMIT n

  ghost predicate Sorted(time: map<nat, int>, ids: seq<nat>)
    requires forall id :: id in ids ==> id in time
  {
    forall i, j :: 0 <= i < j < |ids| ==> time[ids[i]] <= time[ids[j]]
  }

  /** The first `limit` of the candidates in time order: none left out is earlier than one taken. */
  ghost predicate IsSelection(time: map<nat, int>, candidates: set<nat>, ids: seq<nat>, limit: nat) {
    && candidates <= time.Keys
    && Distinct(ids)
    && (forall id :: id in ids ==> id in candidates)
    && |ids| == (if |candidates| < limit then |candidates| else limit)
    && Sorted(time, ids)
    && (forall id, other :: id in ids && other in candidates && other !in ids ==> time[id] <= time[other])
  }

  method EarliestOf(time: map<nat, int>, candidates: set<nat>) returns (first: nat)
    requires candidates != {} && candidates <= time.Keys
    ensures first in candidates && forall id :: id in candidates ==> time[first] <= time[id]
  {
    first :| first in candidates;
    var rest := candidates - {first};
    while rest != {}
      invariant rest <= candidates && first in candidates
      invariant forall id :: id in candidates && id !in rest ==> time[first] <= time[id]
      decreases rest
    {
      var id :| id in rest;
      if time[id] < time[first] { first := id; }
      rest := rest - {id};
    }
  }

  method SelectEarliest(time: map<nat, int>, candidates: set<nat>, limit: nat) returns (ids: seq<nat>)
    requires candidates <= time.Keys
    ensures IsSelection(time, candidates, ids, limit)
  {
    ids := [];
    var rest := candidates;
    while |ids| < limit && rest != {}
      invariant rest <= candidates && |ids| + |rest| == |candidates| && |ids| <= limit
      invariant Distinct(ids)
      invariant forall id :: id in candidates <==> id in ids || id in rest
      invariant forall id :: id in ids ==> id !in rest
      invariant Sorted(time, ids)
      invariant forall id, other :: id in ids && other in rest ==> time[id] <= time[other]
      decreases rest
    {
      var first := EarliestOf(time, rest);
      ids, rest := ids + [first], rest - {first};
    }
  }

  // ---------------------------------------------------------------- the table

  function CreatedAt(rows: Rows): map<nat, int> {
    map id | id in rows :: rows[id].createdAt
  }

  function ClaimTimes(rows: Rows): map<nat, int> {
    map id | id in rows && rows[id].claimedAt.Some? :: rows[id].claimedAt.value
  }

  function DueIds(rows: Rows, now: int): set<nat> {
    set id | id in rows && Due(rows[id], now)
  }

  function StaleIds(rows: Rows, now: int): set<nat> {
    set id | id in rows && Stale(rows[id], now)
  }

  /** Result of a claim, and of a recovery, over rows of which some are locked by other transactions. */
  ghost predicate ClaimedFrom(rows: Rows, locked: set<nat>, now: int, limit: nat, events: seq<nat>, rows': Rows) {
    && IsSelection(CreatedAt(rows), DueIds(rows, now) - locked, events, limit)
    && rows' == ClaimAll(rows, events, now)
  }

  ghost predicate RecoveredFrom(rows: Rows, locked: set<nat>, now: int, limit: nat, events: seq<nat>, rows': Rows) {
    && IsSelection(ClaimTimes(rows), StaleIds(rows, now) - locked, events, limit)
    && rows' == RecoverAll(rows, events)
  }

  lemma OneMore(ids: seq<nat>, i: nat)
    requires i < |ids| && Distinct(ids)
    ensures ids[i] !in ids[..i] && forall id :: id in ids[..i + 1] <==> id in ids[..i] || id == ids[i]
  {
    assert ids[..i + 1] == ids[..i] + [ids[i]];
  }

  function Elements(ids: seq<nat>): set<nat> {
    set id | id in ids
  }

  lemma {:induction false} DistinctSize(ids: seq<nat>)
    requires Distinct(ids)
    ensures |Elements(ids)| == |ids|
  {
    if ids != [] {
      var init, last := ids[..|ids| - 1], ids[|ids| - 1];
      assert forall i :: 0 <= i < |init| ==> init[i] == ids[i] != last;
      DistinctSize(init);
      assert Elements(ids) == Elements(init) + {last};
    }
  }

  /** A candidate is left out only by a full selection. */
  lemma LeftOutMeansFull(time: map<nat, int>, candidates: set<nat>, ids: seq<nat>, limit: nat, other: nat)
    requires IsSelection(time, candidates, ids, limit) && other in candidates && other !in ids
    ensures |ids| == limit
  {
    DistinctSize(ids);
    Cardinality(Elements(ids) + {other}, candidates);
  }

  lemma Cardinality(a: set<nat>, b: set<nat>)
    requires a <= b
    ensures |a| <= |b|
  {
    assert b == a + (b - a);
  }

  /**
   * A claim column by column. What is returned was PENDING, unlocked and due: never retried, or
   * with a retry time that has passed; oldest first. It becomes PROCESSING with the claim's time,
   * and nothing else changes. A row of that kind is left out only when the limit is reached, and
   * then no row taken was created after it.
   */
  lemma ClaimInColumns(rows: Rows, locked: set<nat>, now: int, limit: nat, events: seq<nat>, rows': Rows)
    requires ClaimedFrom(rows, locked, now, limit, events, rows')
    ensures |events| <= limit && rows'.Keys == rows.Keys
    ensures forall id :: id in events ==>
      && id in rows && id !in locked && rows[id].status == Pending
      && (rows[id].nextRetryAt == None || rows[id].nextRetryAt.value <= now)
      && rows'[id] == rows[id].(status := Processing, claimedAt := Some(now))
    ensures forall id :: id in rows && id !in events ==> rows'[id] == rows[id]
    ensures forall i, j :: 0 <= i < j < |events| ==> events[i] != events[j]
    ensures forall i, j :: 0 <= i < j < |events| ==> rows[events[i]].createdAt <= rows[events[j]].createdAt
    ensures forall id ::
      (id in rows && id !in locked && id !in events && rows[id].status == Pending
       && (rows[id].nextRetryAt == None || rows[id].nextRetryAt.value <= now)) ==>
        |events| == limit && forall taken :: taken in events ==> rows[taken].createdAt <= rows[id].createdAt
  {
    forall id | id in DueIds(rows, now) - locked && id !in events ensures |events| == limit {
      LeftOutMeansFull(CreatedAt(rows), DueIds(rows, now) - locked, events, limit, id);
    }
    assert forall id ::
      (id in rows && id !in locked && rows[id].status == Pending
       && (rows[id].nextRetryAt == None || rows[id].nextRetryAt.value <= now)) ==> id in DueIds(rows, now) - locked;
  }

  /**
   * A recovery column by column. What is released was PROCESSING, unlocked and claimed at least
   * 30 seconds before, longest-claimed first; it becomes PENDING without a claim and keeps its
   * retry count and time. Younger claims, and everything else, stay as they are.
   */
  lemma RecoveryInColumns(rows: Rows, locked: set<nat>, now: int, limit: nat, events: seq<nat>, rows': Rows)
    requires RecoveredFrom(rows, locked, now, limit, events, rows')
    ensures |events| <= limit && rows'.Keys == rows.Keys
    ensures forall id :: id in events ==>
      && id in rows && id !in locked && rows[id].status == Processing
      && rows[id].claimedAt.Some? && rows[id].claimedAt.value + 30_000_000 <= now
      && rows'[id] == rows[id].(status := Pending, claimedAt := None)
    ensures forall id :: id in rows && id !in events ==> rows'[id] == rows[id]
    ensures forall i, j :: 0 <= i < j < |events| ==> rows[events[i]].claimedAt.value <= rows[events[j]].claimedAt.value
    ensures forall id ::
      (id in rows && id !in locked && id !in events && rows[id].status == Processing
       && rows[id].claimedAt.Some? && rows[id].claimedAt.value + 30_000_000 <= now) ==>
        |events| == limit
        && forall taken :: taken in events ==> rows[taken].claimedAt.value <= rows[id].claimedAt.value
  {
    forall id | id in StaleIds(rows, now) - locked && id !in events ensures |events| == limit {
      LeftOutMeansFull(ClaimTimes(rows), StaleIds(rows, now) - locked, events, limit, id);
    }
    assert forall id ::
      (id in rows && id !in locked && rows[id].status == Processing
       && rows[id].claimedAt.Some? && rows[id].claimedAt.value + 30_000_000 <= now) ==>
        id in StaleIds(rows, now) - locked;
  }

  class OutboxTable {
    var rows: Rows

    /** The loop of a claim: status and claimed_at of each selected row. */
    method SetClaimed(events: seq<nat>, now: int)
      requires Distinct(events) && forall id :: id in events ==> id in rows
      modifies this
      ensures rows == ClaimAll(old(rows), events, now)
    {
      for i := 0 to |events|
        invariant rows == ClaimAll(old(rows), events[..i], now)
      {
        OneMore(events, i);
        rows := rows[events[i] := rows[events[i]].(status := Processing, claimedAt := Some(now))];
      }
      assert events[..|events|] == events;
    }

    method SetRecovered(events: seq<nat>)
      requires Distinct(events) && forall id :: id in events ==> id in rows
      modifies this
      ensures rows == RecoverAll(old(rows), events)
    {
      for i := 0 to |events|
        invariant rows == RecoverAll(old(rows), events[..i])
      {
        OneMore(events, i);
        rows := rows[events[i] := rows[events[i]].(status := Pending, claimedAt := None)];
      }
      assert events[..|events|] == events;
    }

    /** Claims, oldest first, the earliest due rows that no other transaction has locked; nothing else changes. */
    method ClaimPendingEvents(limit: nat, locked: set<nat>, now: int) returns (events: seq<nat>)
      modifies this
      ensures ClaimedFrom(old(rows), locked, now, limit, events, rows)
    {
      events := SelectEarliest(CreatedAt(rows), DueIds(rows, now) - locked, limit);
      SetClaimed(events, now);
    }

    /** Releases the longest-claimed of the rows whose claim is at least 30 seconds old. */
    method RecoverStaleEvents(limit: nat, locked: set<nat>, now: int) returns (count: nat, ghost events: seq<nat>)
      modifies this
      ensures RecoveredFrom(old(rows), locked, now, limit, events, rows)
      ensures count == |events|
    {
      var stale := SelectEarliest(ClaimTimes(rows), StaleIds(rows, now) - locked, limit);
      SetRecovered(stale);
      count, events := |stale|, stale;
    }

    /** db.get, mark the mapped object, commit. */
    method Publish(id: nat, now: int)
      modifies this
      ensures rows == MarkRow(old(rows), Sent([id], 0), now)
    {
      if id in rows {
        var result := new OutboxEvent.Load(rows[id]);
        result.MarkPublished(now);
        rows := rows[id := result.Columns()];
      }
    }

    method Fail(id: nat, error: string, now: int)
      modifies this
      ensures rows == MarkRow(old(rows), Refused([id], 0, error), now)
    {
      if id in rows {
        var result := new OutboxEvent.Load(rows[id]);
        result.MarkFailed(error, now);
        rows := rows[id := result.Columns()];
      }
    }
  }

  // ---------------------------------------------------------------- one batch

  /** How the broker answers the send of an event, and the clock when the row is marked. */
  datatype Answer = Answer(reply: Reply, at: int)

  function AfterMark(rows: Rows, id: nat, a: Answer): Rows {
    MarkRow(rows, if a.reply.Acked? then Sent([id], 0) else Refused([id], 0, a.reply.error), a.at)
  }

  function RowsAfter(rows: Rows, batch: seq<Event>, answers: nat -> Answer): Rows {
    if batch == [] then rows
    else
      var id := batch[|batch| - 1].id;
      AfterMark(RowsAfter(rows, batch[..|batch| - 1], answers), id, answers(id))
  }

  function LogAfter(log: Log, batch: seq<Event>, answers: nat -> Answer): Log {
    if batch == [] then log
    else
      var e := batch[|batch| - 1];
      Delivered(LogAfter(log, batch[..|batch| - 1], answers), answers(e.id).reply, e)
  }

  function AckedIn(batch: seq<Event>, answers: nat -> Answer): nat {
    if batch == [] then 0
    else AckedIn(batch[..|batch| - 1], answers) + if answers(batch[|batch| - 1].id).reply.Acked? then 1 else 0
  }

  function AckedPositions(batch: seq<Event>, answers: nat -> Answer): set<nat> {
    set i | 0 <= i < |batch| && answers(batch[i].id).reply.Acked?
  }

  lemma OnePositionMore(batch: seq<Event>, answers: nat -> Answer)
    requires batch != []
    ensures var n := |batch| - 1; var before := AckedPositions(batch[..n], answers);
      && AckedPositions(batch, answers) == before + (if answers(batch[n].id).reply.Acked? then {n} else {})
      && |AckedPositions(batch, answers)| == |before| + if answers(batch[n].id).reply.Acked? then 1 else 0
  {
    var n := |batch| - 1;
    var before := AckedPositions(batch[..n], answers);
    assert n !in before;
    assert AckedPositions(batch, answers) == before + (if answers(batch[n].id).reply.Acked? then {n} else {});
  }

  /** The number process_batch returns: how many positions of the batch were acknowledged. */
  lemma {:induction false} AckedInCounts(batch: seq<Event>, answers: nat -> Answer)
    ensures AckedIn(batch, answers) == |AckedPositions(batch, answers)|
    ensures (forall e :: e in batch ==> !answers(e.id).reply.Acked?) ==> AckedIn(batch, answers) == 0
    ensures (forall e :: e in batch ==> answers(e.id).reply.Acked?) ==> AckedIn(batch, answers) == |batch|
  {
    if batch != [] {
      var n := |batch| - 1;
      AckedInCounts(batch[..n], answers);
      OnePositionMore(batch, answers);
      assert batch[n] in batch && forall e :: e in batch[..n] ==> e in batch;
    }
  }

  ghost predicate Contents(rows: Rows, ids: seq<nat>, events: seq<Event>) {
    |events| == |ids| && forall k :: 0 <= k < |ids| ==> ids[k] in rows && events[k] == rows[ids[k]].event
  }

  /** What the surroundings decide in one batch: the clocks, the rows others have locked, the broker's answers. */
  datatype Poll = Poll(sweepAt: int, sweepLocked: set<nat>, claimAt: int, claimLocked: set<nat>, answers: nat -> Answer)

  /** Recover some stale rows, claim the earliest due ones, send and mark what was claimed. */
  ghost predicate BatchFrom(rows: Rows, rows': Rows, limit: nat, poll: Poll, stale: seq<nat>, claimed: seq<nat>,
      sent: seq<Event>) {
    var swept := RecoverAll(rows, stale);
    && RecoveredFrom(rows, poll.sweepLocked, poll.sweepAt, limit, stale, swept)
    && ClaimedFrom(swept, poll.claimLocked, poll.claimAt, limit, claimed, ClaimAll(swept, claimed, poll.claimAt))
    && Contents(rows, claimed, sent)
    && rows' == RowsAfter(ClaimAll(swept, claimed, poll.claimAt), sent, poll.answers)
  }

  ghost predicate Batch(rows: Rows, rows': Rows, limit: nat, poll: Poll) {
    exists stale, claimed, sent :: BatchFrom(rows, rows', limit, poll, stale, claimed, sent)
  }

  /** The table before the first batch and after each. */
  ghost predicate Batches(history: seq<Rows>, limit: nat, polls: nat -> Poll) {
    forall i :: 0 <= i < |history| - 1 ==> Batch(history[i], history[i + 1], limit, polls(i))
  }

  lemma OneBatchMore(history: seq<Rows>, rows: Rows, limit: nat, polls: nat -> Poll)
    requires history != [] && Batches(history, limit, polls)
    requires Batch(history[|history| - 1], rows, limit, polls(|history| - 1))
    ensures Batches(history + [rows], limit, polls)
  {
    var longer := history + [rows];
    forall i | 0 <= i < |longer| - 1 ensures Batch(longer[i], longer[i + 1], limit, polls(i)) {
      if i < |history| - 1 { assert Batch(history[i], history[i + 1], limit, polls(i)); }
    }
  }

  class OutboxWorker {
    const table: OutboxTable
    const batchSize: nat
    var log: Log       // what its producer has put on the topic
    var running: bool

    constructor (table: OutboxTable, batchSize: nat, log: Log)
      ensures this.table == table && this.batchSize == batchSize && this.log == log && !running
    {
      this.table, this.batchSize, this.log, this.running := table, batchSize, log, false;
    }

    /** Send one event, then mark its row by the outcome. */
    method SendAndMark(e: Event, a: Answer) returns (acked: bool)
      modifies this`log, table
      ensures log == Delivered(old(log), a.reply, e)
      ensures table.rows == AfterMark(old(table.rows), e.id, a)
      ensures acked == a.reply.Acked?
    {
      log := Delivered(log, a.reply, e);
      acked := a.reply.Acked?;
      if acked {
        table.Publish(e.id, a.at);
      } else {
        table.Fail(e.id, a.reply.error, a.at);
      }
    }

    /** The publishing loop: `processed` counts acknowledged sends, a failed one is marked and skipped. */
    method PublishAll(batch: seq<Event>, answers: nat -> Answer) returns (processed: nat)
      modifies this`log, table
      ensures table.rows == RowsAfter(old(table.rows), batch, answers)
      ensures log == LogAfter(old(log), batch, answers)
      ensures processed == AckedIn(batch, answers)
    {
      processed := 0;
      for i := 0 to |batch|
        invariant table.rows == RowsAfter(old(table.rows), batch[..i], answers)
        invariant log == LogAfter(old(log), batch[..i], answers)
        invariant processed == AckedIn(batch[..i], answers)
      {
        assert batch[..i + 1][..i] == batch[..i];
        var acked := SendAndMark(batch[i], answers(batch[i].id));
        if !acked {
          continue;
        }
        processed := processed + 1;
      }
      assert batch[..|batch|] == batch;
    }

    /** The main loop: batch after batch until stop(), which arrives during batch number stopAfter. */
    method Run(polls: nat -> Poll, stopAfter: nat) returns (ghost history: seq<Rows>)
      modifies this`log, this`running, table
      ensures !running && |history| == stopAfter + 1
      ensures history[0] == old(table.rows) && history[stopAfter] == table.rows
      ensures Batches(history, batchSize, polls)
    {
      running := true;
      history := [table.rows];
      var n := 0;
      if n == stopAfter { Stop(); }
      while running
        invariant n <= stopAfter && |history| == n + 1 && running == (n < stopAfter)
        invariant history[0] == old(table.rows) && history[n] == table.rows
        invariant Batches(history, batchSize, polls)
        decreases stopAfter - n
      {
        history := NextBatch(history, polls, n);
        n := n + 1;
        if n == stopAfter { Stop(); }
      }
    }

    /** One more batch at the end of a history of batches. */
    method NextBatch(ghost history: seq<Rows>, polls: nat -> Poll, n: nat) returns (ghost longer: seq<Rows>)
      requires |history| == n + 1 && history[n] == table.rows && Batches(history, batchSize, polls)
      modifies this`log, table
      ensures longer == history + [table.rows] && Batches(longer, batchSize, polls)
    {
      var _, stale, claimed, sent := ProcessBatch(polls(n));
      assert Batch(history[n], table.rows, batchSize, polls(n));
      OneBatchMore(history, table.rows, batchSize, polls);
      longer := history + [table.rows];
    }

    /** Recover, claim, publish. What is sent is the content at claim time. */
    method ProcessBatch(poll: Poll)
      returns (processed: nat, ghost stale: seq<nat>, ghost claimed: seq<nat>, ghost sent: seq<Event>)
      modifies this`log, table
      ensures BatchFrom(old(table.rows), table.rows, batchSize, poll, stale, claimed, sent)
      ensures log == LogAfter(old(log), sent, poll.answers)
      ensures processed == AckedIn(sent, poll.answers)
    {
      var _, recovered := table.RecoverStaleEvents(batchSize, poll.sweepLocked, poll.sweepAt);
      var events := table.ClaimPendingEvents(batchSize, poll.claimLocked, poll.claimAt);
      stale, claimed, sent := recovered, events, [];
      if events == [] {
        return 0, stale, claimed, sent;
      }
      var batch := Load(table.rows, events);
      sent := batch;
      processed := PublishAll(batch, poll.answers);
    }

    method Stop()
      modifies this`running
      ensures !running
    {
      running := false;
    }
  }

  method Load(rows: Rows, ids: seq<nat>) returns (events: seq<Event>)
    requires forall id :: id in ids ==> id in rows
    ensures Contents(rows, ids, events)
  {
    events := [];
    for i := 0 to |ids|
      invariant |events| == i && forall k :: 0 <= k < i ==> events[k] == rows[ids[k]].event
    {
      events := events + [rows[ids[i]].event];
    }
  }
}
