/** A batch as the worker runs it is a run of the lease protocol: every guarantee of the protocol is one of the code. */
module OutboxRefinement {
  import opened LedgerTables
  import opened OutboxRows
  import opened OutboxMachine
  import opened OutboxWorkers

  function PublishActions(w: nat, batch: seq<Event>, answers: nat -> Answer): seq<Action> {
    if batch == [] then []
    else
      var a := answers(batch[|batch| - 1].id);
      PublishActions(w, batch[..|batch| - 1], answers) + [Send(w, a.reply), Mark(w, a.at)]
  }

  /** The broker and the clock behave: an acknowledgement names a partition, and marks do not come from the future. */
  ghost predicate Plausible(s: State, batch: seq<Event>, answers: nat -> Answer) {
    forall e :: e in batch ==>
      answers(e.id).at <= s.clock && (answers(e.id).reply.Acked? ==> answers(e.id).reply.partition < |s.log|)
  }

  lemma {:induction false} BatchKeepsShape(rows: Rows, log: Log, batch: seq<Event>, answers: nat -> Answer)
    ensures var rows', log' := RowsAfter(rows, batch, answers), LogAfter(log, batch, answers);
      && rows'.Keys == rows.Keys && |log'| == |log|
      && forall id :: id in rows ==> rows'[id].event == rows[id].event
  {
    if batch != [] {
      BatchKeepsShape(rows, log, batch[..|batch| - 1], answers);
    }
  }

  lemma TwoMore(s: State, actions: seq<Action>, a: Action, b: Action)
    ensures Exec(s, actions + [a, b]) == Step(Step(Exec(s, actions), a), b)
  {
    assert (actions + [a, b])[..|actions| + 1] == actions + [a];
    assert (actions + [a])[..|actions|] == actions;
  }

  lemma SendThenMark(s: State, w: nat, ids: seq<nat>, claimedAt: int, e: Event, a: Answer)
    requires w < |s.workers| && ids != [] && s.workers[w] == Holding(ids, claimedAt)
    requires ids[0] in s.rows && s.rows[ids[0]].event == e && e.id == ids[0]
    requires a.at <= s.clock && (a.reply.Acked? ==> a.reply.partition < |s.log|)
    ensures Step(Step(s, Send(w, a.reply)), Mark(w, a.at))
         == s.(rows := AfterMark(s.rows, e.id, a), log := Delivered(s.log, a.reply, e),
               workers := s.workers[w := NextInBatch(ids, claimedAt)])
  {
    var sent := if a.reply.Acked? then Sent(ids, claimedAt) else Refused(ids, claimedAt, a.reply.error);
    var s1 := s.(log := Delivered(s.log, a.reply, e), workers := s.workers[w := sent]);
    assert Step(s, Send(w, a.reply)) == s1;
    assert s1.workers[w := NextInBatch(ids, claimedAt)] == s.workers[w := NextInBatch(ids, claimedAt)];
  }

  /** After k events of the batch the worker holds the rest, and rows and log are as the loop has left them. */
  function Halfway(s: State, w: nat, ids: seq<nat>, claimedAt: int, batch: seq<Event>, k: nat,
      answers: nat -> Answer): State
    requires w < |s.workers| && k <= |ids| == |batch|
  {
    s.(rows := RowsAfter(s.rows, batch[..k], answers), log := LogAfter(s.log, batch[..k], answers),
       workers := s.workers[w := if k == |ids| then Idle else Holding(ids[k..], claimedAt)])
  }

  lemma OneMoreEvent(s: State, w: nat, ids: seq<nat>, claimedAt: int, batch: seq<Event>, j: nat, answers: nat -> Answer)
    requires w < |s.workers| && s.workers[w] == Holding(ids, claimedAt)
    requires Contents(s.rows, ids, batch) && (forall i :: 0 <= i < |ids| ==> batch[i].id == ids[i])
    requires Plausible(s, batch, answers) && j < |ids|
    ensures var a := answers(batch[j].id);
      Step(Step(Halfway(s, w, ids, claimedAt, batch, j, answers), Send(w, a.reply)), Mark(w, a.at))
      == Halfway(s, w, ids, claimedAt, batch, j + 1, answers)
  {
    var mid, a := Halfway(s, w, ids, claimedAt, batch, j, answers), answers(batch[j].id);
    BatchKeepsShape(s.rows, s.log, batch[..j], answers);
    SendThenMark(mid, w, ids[j..], claimedAt, batch[j], a);
    assert batch[..j + 1][..j] == batch[..j];
    assert ids[j..][1..] == ids[j + 1..];
  }

  lemma {:induction false} PublishingIsARun(s: State, w: nat, ids: seq<nat>, claimedAt: int, batch: seq<Event>, k: nat,
                                            answers: nat -> Answer)
    requires w < |s.workers| && s.workers[w] == Holding(ids, claimedAt) && ids != []
    requires Contents(s.rows, ids, batch) && (forall i :: 0 <= i < |ids| ==> batch[i].id == ids[i])
    requires Plausible(s, batch, answers) && k <= |ids|
    ensures Exec(s, PublishActions(w, batch[..k], answers)) == Halfway(s, w, ids, claimedAt, batch, k, answers)
  {
    if k == 0 {
      assert ids[0..] == ids;
    } else {
      var j, a := k - 1, answers(batch[k - 1].id);
      PublishingIsARun(s, w, ids, claimedAt, batch, j, answers);
      assert batch[..k][..j] == batch[..j];
      TwoMore(s, PublishActions(w, batch[..j], answers), Send(w, a.reply), Mark(w, a.at));
      OneMoreEvent(s, w, ids, claimedAt, batch, j, answers);
    }
  }

  function BatchActions(w: nat, stale: seq<nat>, sweepAt: int, claimed: seq<nat>, claimAt: int,
                        sent: seq<Event>, answers: nat -> Answer): seq<Action> {
    [Recover(w, stale, sweepAt), Claim(w, claimed, claimAt)] + PublishActions(w, sent, answers)
  }

  ghost predicate Sweepable(rows: Rows, stale: seq<nat>, now: int) {
    forall id :: id in stale ==> id in rows && Stale(rows[id], now)
  }

  ghost predicate Claimable(rows: Rows, claimed: seq<nat>, now: int) {
    Distinct(claimed) && forall id :: id in claimed ==> id in rows && Due(rows[id], now)
  }

  /** What the two queries select is what the protocol allows. */
  lemma SelectionsAreAllowed(rows: Rows, rows': Rows, locked: set<nat>, now: int, limit: nat, ids: seq<nat>)
    ensures RecoveredFrom(rows, locked, now, limit, ids, rows') ==> Sweepable(rows, ids, now)
    ensures ClaimedFrom(rows, locked, now, limit, ids, rows') ==> Claimable(rows, ids, now)
  {
  }

  lemma SweepAndClaim(s: State, w: nat, stale: seq<nat>, sweepAt: int, claimed: seq<nat>, claimAt: int)
    requires w < |s.workers| && s.workers[w].Idle? && sweepAt <= s.clock && claimAt <= s.clock
    requires Sweepable(s.rows, stale, sweepAt) && Claimable(RecoverAll(s.rows, stale), claimed, claimAt)
    ensures Exec(s, [Recover(w, stale, sweepAt), Claim(w, claimed, claimAt)])
         == s.(rows := ClaimAll(RecoverAll(s.rows, stale), claimed, claimAt),
               workers := s.workers[w := if claimed == [] then Idle else Holding(claimed, claimAt)])
  {
    var a, b := Recover(w, stale, sweepAt), Claim(w, claimed, claimAt);
    TwoMore(s, [], a, b);
    assert [] + [a, b] == [a, b];
    var s1 := s.(rows := RecoverAll(s.rows, stale), workers := s.workers[w := Swept]);
    assert Step(s, a) == s1;
    var next := if claimed == [] then Idle else Holding(claimed, claimAt);
    assert Step(s1, b) == s1.(rows := ClaimAll(s1.rows, claimed, claimAt), workers := s1.workers[w := next]);
    assert s1.workers[w := next] == s.workers[w := next];
  }

  lemma ClaimKeepsContents(rows: Rows, stale: seq<nat>, claimed: seq<nat>, now: int, sent: seq<Event>)
    requires Contents(rows, claimed, sent)
    ensures Contents(ClaimAll(RecoverAll(rows, stale), claimed, now), claimed, sent)
  {
  }

  lemma BatchIsARun(s: State, w: nat, sweepAt: int, claimAt: int,
                    stale: seq<nat>, claimed: seq<nat>, sent: seq<Event>, answers: nat -> Answer)
    requires w < |s.workers| && s.workers[w].Idle? && sweepAt <= s.clock && claimAt <= s.clock
    requires Sweepable(s.rows, stale, sweepAt) && Claimable(RecoverAll(s.rows, stale), claimed, claimAt)
    requires Contents(s.rows, claimed, sent) && (forall i :: 0 <= i < |sent| ==> sent[i].id == claimed[i])
    requires Plausible(s, sent, answers)
    ensures Exec(s, BatchActions(w, stale, sweepAt, claimed, claimAt, sent, answers))
         == s.(rows := RowsAfter(ClaimAll(RecoverAll(s.rows, stale), claimed, claimAt), sent, answers),
               log := LogAfter(s.log, sent, answers))
  {
    SweepAndClaim(s, w, stale, sweepAt, claimed, claimAt);
    var s2 := Exec(s, [Recover(w, stale, sweepAt), Claim(w, claimed, claimAt)]);
    ExecConcat(s, [Recover(w, stale, sweepAt), Claim(w, claimed, claimAt)], PublishActions(w, sent, answers));
    if claimed == [] {
      assert s2.workers == s.workers;
    } else {
      ClaimKeepsContents(s.rows, stale, claimed, claimAt, sent);
      PublishingIsARun(s2, w, claimed, claimAt, sent, |claimed|, answers);
      assert sent[..|claimed|] == sent;
      assert s2.workers[w := Idle] == s.workers;
    }
  }

  /** The whole of process_batch: its postcondition describes the end of a run of worker w, back to idle. */
  lemma ProcessBatchIsARun(s: State, w: nat, rows': Rows, limit: nat, poll: Poll,
                           stale: seq<nat>, claimed: seq<nat>, sent: seq<Event>)
    requires RowsInv(s) && w < |s.workers| && s.workers[w].Idle? && poll.sweepAt <= s.clock && poll.claimAt <= s.clock
    requires BatchFrom(s.rows, rows', limit, poll, stale, claimed, sent) && Plausible(s, sent, poll.answers)
    ensures Exec(s, BatchActions(w, stale, poll.sweepAt, claimed, poll.claimAt, sent, poll.answers))
         == s.(rows := rows', log := LogAfter(s.log, sent, poll.answers))
  {
    var swept := RecoverAll(s.rows, stale);
    SelectionsAreAllowed(s.rows, swept, poll.sweepLocked, poll.sweepAt, limit, stale);
    SelectionsAreAllowed(swept, ClaimAll(swept, claimed, poll.claimAt), poll.claimLocked, poll.claimAt, limit, claimed);
    forall i | 0 <= i < |sent| ensures sent[i].id == claimed[i] { assert RowOk(s, claimed[i]); }
    BatchIsARun(s, w, poll.sweepAt, poll.claimAt, stale, claimed, sent, poll.answers);
  }
}
