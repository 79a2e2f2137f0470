/**
 * The outbox lease protocol: any number of workers, each recovering stale rows, claiming due
 * ones, sending them one by one and marking each, in separate database transactions. A worker
 * may be arbitrarily slow between two steps or crash and restart with nothing in hand, and
 * neither mark looks at the row's status or at who claimed it.
 */
module OutboxMachine {
  import opened Prelude
  import opened LedgerTables
  import opened OutboxRows

  type Rows = map<nat, Row>

  /** Kafka: one append-only sequence of messages per partition; a message carries the row's event. */
  type Log = seq<seq<Event>>

  datatype Worker =
    | Idle
    | Swept                                                     // stale rows recovered, nothing claimed yet
    | Holding(batch: seq<nat>, claimedAt: int)                  // batch[0] is next to be sent
    | Sent(batch: seq<nat>, claimedAt: int)                     // batch[0] acknowledged, not marked
    | Refused(batch: seq<nat>, claimedAt: int, error: string)   // send of batch[0] raised, not marked

  datatype State = State(rows: Rows, log: Log, workers: seq<Worker>, clock: int)

  /** A send is acknowledged, or raises; a send that raises may have appended all the same. */
  datatype Reply = Acked(partition: nat) | Raised(error: string) | RaisedButAppended(error: string, partition: nat)

  datatype Action =
    | Recover(w: nat, stale: seq<nat>, now: int)
    | Claim(w: nat, batch: seq<nat>, now: int)
    | Send(w: nat, reply: Reply)
    | Mark(w: nat, now: int)
    | Crash(w: nat)
    | Tick(d: nat)
    | Emit(event: Event)   // a ledger commit adds a row

  function RecoverAll(rows: Rows, ids: seq<nat>): Rows {
    map id | id in rows :: if id in ids then Recovered(rows[id]) else rows[id]
  }

  function ClaimAll(rows: Rows, ids: seq<nat>, now: int): Rows {
    map id | id in rows :: if id in ids then Claimed(rows[id], now) else rows[id]
  }

  ghost predicate Distinct(ids: seq<nat>) {
    forall i, j :: 0 <= i < j < |ids| ==> ids[i] != ids[j]
  }

  function Append(log: Log, partition: nat, e: Event): Log {
    if partition < |log| then log[partition := log[partition] + [e]] else log
  }

  function Delivered(log: Log, reply: Reply, e: Event): Log {
    match reply
    case Acked(k) => Append(log, k, e)
    case Raised(_) => log
    case RaisedButAppended(_, k) => Append(log, k, e)
  }

  /** An acknowledged send adds one copy of the event at the end of one partition; a plain failure adds nothing. */
  lemma OneMessageIsDelivered(log: Log, reply: Reply, e: Event)
    ensures |Delivered(log, reply, e)| == |log|
    ensures reply.Acked? && reply.partition < |log| ==>
      && Delivered(log, reply, e)[reply.partition] == log[reply.partition] + [e]
      && forall k :: 0 <= k < |log| && k != reply.partition ==> Delivered(log, reply, e)[k] == log[k]
    ensures reply.Raised? ==> Delivered(log, reply, e) == log
  {
  }

  ghost predicate InLog(log: Log, e: Event) {
    exists i :: 0 <= i < |log| && e in log[i]
  }

  function MarkRow(rows: Rows, w: Worker, now: int): Rows
    requires (w.Sent? || w.Refused?) && w.batch != []
  {
    var id := w.batch[0];
    if id !in rows then rows
    else if w.Sent? then rows[id := MarkedPublished(rows[id], now)]
    else rows[id := MarkedFailed(rows[id], w.error, now)]
  }

  function NextInBatch(batch: seq<nat>, claimedAt: int): Worker
    requires batch != []
  {
    if |batch| == 1 then Idle else Holding(batch[1..], claimedAt)
  }

  /** Which rows a claim or a recovery may take is left open here: any due (stale) ones. */
  ghost predicate Enabled(s: State, a: Action) {
    match a
    case Recover(w, ids, now) =>
      && w < |s.workers| && s.workers[w].Idle? && now <= s.clock
      && forall id :: id in ids ==> id in s.rows && Stale(s.rows[id], now)
    case Claim(w, ids, now) =>
      && w < |s.workers| && s.workers[w].Swept? && now <= s.clock && Distinct(ids)
      && forall id :: id in ids ==> id in s.rows && Due(s.rows[id], now)
    case Send(w, reply) =>
      && w < |s.workers| && s.workers[w].Holding? && s.workers[w].batch != [] && s.workers[w].batch[0] in s.rows
      && (reply.Acked? ==> reply.partition < |s.log|)
    case Mark(w, now) =>
      && w < |s.workers| && (s.workers[w].Sent? || s.workers[w].Refused?) && s.workers[w].batch != []
      && now <= s.clock
    case Crash(w) => w < |s.workers|
    case Tick(_) => true
    case Emit(e) => e.id !in s.rows
  }

  ghost function Step(s: State, a: Action): State {
    if !Enabled(s, a) then s else
    match a
    case Recover(w, ids, _) => s.(rows := RecoverAll(s.rows, ids), workers := s.workers[w := Swept])
    case Claim(w, ids, now) =>
      s.(rows := ClaimAll(s.rows, ids, now), workers := s.workers[w := if ids == [] then Idle else Holding(ids, now)])
    case Send(w, reply) =>
      var h := s.workers[w];
      s.(log := Delivered(s.log, reply, s.rows[h.batch[0]].event),
         workers := s.workers[w := if reply.Acked? then Sent(h.batch, h.claimedAt)
           else Refused(h.batch, h.claimedAt, reply.error)])
    case Mark(w, now) =>
      var h := s.workers[w];
      s.(rows := MarkRow(s.rows, h, now), workers := s.workers[w := NextInBatch(h.batch, h.claimedAt)])
    case Crash(w) => s.(workers := s.workers[w := Idle])
    case Tick(d) => s.(clock := s.clock + d)
    case Emit(e) => s.(rows := s.rows[e.id := NewRow(e, s.clock)])
  }

  ghost function Exec(s: State, actions: seq<Action>): State {
    if actions == [] then s
    else Step(Exec(s, actions[..|actions| - 1]), actions[|actions| - 1])
  }

  /** A new row: pending, never tried, created now; the other rows stay. */
  lemma NewRowInColumns(s: State, e: Event)
    requires e.id !in s.rows
    ensures Step(s, Emit(e)).rows == s.rows[e.id := Row(e, s.clock, Pending, 0, None, None, None, None)]
  {
  }

  lemma {:induction false} ExecConcat(s: State, first: seq<Action>, second: seq<Action>)
    ensures Exec(s, first + second) == Exec(Exec(s, first), second)
  {
    if second == [] {
      assert first + second == first;
    } else {
      var init := second[..|second| - 1];
      ExecConcat(s, first, init);
      assert (first + second)[..|first + second| - 1] == first + init;
    }
  }

  ghost predicate Initial(s: State) {
    s.rows == map[] && (forall w :: 0 <= w < |s.workers| ==> s.workers[w].Idle?)
  }

  // ---------------------------------------------------------------- rows under arbitrarily stale workers

  ghost predicate RowOk(s: State, id: nat)
    requires id in s.rows
  {
    && s.rows[id].event.id == id
    && Coherent(s.rows[id])
    && (s.rows[id].status == Published ==> InLog(s.log, s.rows[id].event))
  }

  /** A worker that is about to mark a row published has sent that row's own event. */
  ghost predicate WorkerOk(s: State, w: Worker) {
    && ((w.Holding? || w.Sent? || w.Refused?) ==>
          w.batch != [] && Distinct(w.batch) && w.claimedAt <= s.clock && forall id :: id in w.batch ==> id in s.rows)
    && (w.Sent? ==> InLog(s.log, s.rows[w.batch[0]].event))
  }

  ghost predicate RowsInv(s: State) {
    && (forall id :: id in s.rows ==> RowOk(s, id))
    && (forall w :: 0 <= w < |s.workers| ==> WorkerOk(s, s.workers[w]))
  }

  lemma AppendKeeps(log: Log, partition: nat, e: Event, earlier: Event)
    ensures InLog(log, earlier) ==> InLog(Append(log, partition, e), earlier)
    ensures partition < |log| ==> InLog(Append(log, partition, e), e)
  {
    if i :| 0 <= i < |log| && earlier in log[i] {
      assert earlier in Append(log, partition, e)[i];
    }
    if partition < |log| {
      assert e in Append(log, partition, e)[partition];
    }
  }

  lemma LogOnlyGrows(s: State, a: Action, e: Event)
    requires InLog(s.log, e)
    ensures InLog(Step(s, a).log, e)
  {
    if a.Send? && Enabled(s, a) && !a.reply.Raised? {
      AppendKeeps(s.log, a.reply.partition, s.rows[s.workers[a.w].batch[0]].event, e);
    }
  }

  /** Rows are never deleted, and their event never changes. */
  lemma EventsAreFixed(s: State, a: Action, id: nat)
    requires id in s.rows
    ensures id in Step(s, a).rows && Step(s, a).rows[id].event == s.rows[id].event
  {
  }

  lemma RowOkStep(s: State, a: Action, id: nat)
    requires RowsInv(s) && id in Step(s, a).rows
    ensures RowOk(Step(s, a), id)
  {
    var s' := Step(s, a);
    if id in s.rows {
      assert RowOk(s, id);
      if InLog(s.log, s.rows[id].event) { LogOnlyGrows(s, a, s.rows[id].event); }
      if a.Mark? && Enabled(s, a) {
        assert WorkerOk(s, s.workers[a.w]);
      }
    }
  }

  lemma WorkerOkStep(s: State, a: Action, w: nat)
    requires RowsInv(s) && w < |Step(s, a).workers|
    ensures WorkerOk(Step(s, a), Step(s, a).workers[w])
  {
    var s' := Step(s, a);
    var h := s.workers[w];
    assert WorkerOk(s, h);
    forall id | id in s.rows ensures id in s'.rows && s'.rows[id].event == s.rows[id].event {
      EventsAreFixed(s, a, id);
    }
    if h.Sent? { LogOnlyGrows(s, a, s.rows[h.batch[0]].event); }
    if a.Send? && Enabled(s, a) && a.w == w && a.reply.Acked? {
      AppendKeeps(s.log, a.reply.partition, s.rows[h.batch[0]].event, s.rows[h.batch[0]].event);
    }
  }

  lemma RowsInvStep(s: State, a: Action)
    requires RowsInv(s)
    ensures RowsInv(Step(s, a)) && |Step(s, a).workers| == |s.workers|
  {
    forall id | id in Step(s, a).rows ensures RowOk(Step(s, a), id) { RowOkStep(s, a, id); }
    forall w | 0 <= w < |Step(s, a).workers|
      ensures WorkerOk(Step(s, a), Step(s, a).workers[w]) { WorkerOkStep(s, a, w); }
  }

  /** In every run, however stale the workers that mark: every row is coherent, and published rows are in the log. */
  lemma {:induction false} RowsAlwaysCoherent(s0: State, actions: seq<Action>)
    requires Initial(s0)
    ensures RowsInv(Exec(s0, actions)) && |Exec(s0, actions).workers| == |s0.workers|
  {
    if actions != [] {
      RowsAlwaysCoherent(s0, actions[..|actions| - 1]);
      RowsInvStep(Exec(s0, actions[..|actions| - 1]), actions[|actions| - 1]);
    }
  }

  // ---------------------------------------------------------------- between two claims

  /** The step recovers event id, or marks it. */
  ghost predicate Releases(s: State, a: Action, id: nat) {
    && Enabled(s, a)
    && ((a.Recover? && id in a.stale) || (a.Mark? && s.workers[a.w].batch[0] == id))
  }

  /** A claim takes only PENDING rows; a claimed row stays PROCESSING until it is recovered or marked. */
  lemma ReclaimNeedsRelease(s: State, a: Action, id: nat)
    requires id in s.rows && s.rows[id].status == Processing
    ensures id in Step(s, a).rows
    ensures Step(s, a).rows[id].status != Processing ==> Releases(s, a, id)
    ensures a.Claim? && Enabled(s, a) ==> id !in a.batch
  {
  }

  lemma {:induction false} StaysClaimed(s: State, actions: seq<Action>, id: nat)
    requires id in s.rows && s.rows[id].status == Processing
    requires forall k :: 0 <= k < |actions| ==> !Releases(Exec(s, actions[..k]), actions[k], id)
    ensures id in Exec(s, actions).rows && Exec(s, actions).rows[id].status == Processing
  {
    if actions != [] {
      var init := actions[..|actions| - 1];
      assert forall k :: 0 <= k < |init| ==> init[..k] == actions[..k];
      StaysClaimed(s, init, id);
      ReclaimNeedsRelease(Exec(s, init), actions[|actions| - 1], id);
    }
  }

  /** Between two claims of one event, by whichever workers, lies a recovery or a mark of it. */
  lemma ClaimsAreSeparated(s: State, first: Action, between: seq<Action>, second: Action, id: nat)
    requires first.Claim? && Enabled(s, first) && id in first.batch
    requires second.Claim? && Enabled(Exec(Step(s, first), between), second) && id in second.batch
    ensures exists k :: 0 <= k < |between| && Releases(Exec(Step(s, first), between[..k]), between[k], id)
  {
    var s1 := Step(s, first);
    assert s1.rows[id].status == Processing;
    if forall k :: 0 <= k < |between| ==> !Releases(Exec(s1, between[..k]), between[k], id) {
      StaysClaimed(s1, between, id);
      ReclaimNeedsRelease(Exec(s1, between), second, id);
    }
  }
}
