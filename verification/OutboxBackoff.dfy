/** A failed send is not repeated before its retry time, however many workers there are and however slow. */
module OutboxBackoff {
  import opened Prelude
  import opened OutboxRows
  import opened OutboxMachine

  /** The step marks the failed send of event id, at this time. */
  ghost predicate FailsAt(s: State, a: Action, id: nat, t: int) {
    a.Mark? && Enabled(s, a) && s.workers[a.w].Refused? && s.workers[a.w].batch[0] == id && a.now == t
  }

  /** Marks of the event in the schedule, whoever makes them, do not read a clock before t. */
  ghost predicate NoMarkBefore(s: State, actions: seq<Action>, id: nat, t: int) {
    forall k :: 0 <= k < |actions| ==> MarksNotBefore(Exec(s, actions[..k]), actions[k], id, t)
  }

  ghost predicate MarksNotBefore(s: State, a: Action, id: nat, t: int) {
    a.Mark? && Enabled(s, a) && s.workers[a.w].batch[0] == id ==> t <= a.now
  }

  /** The event has been retried n times, and if it is open it waits until t + wait at least. */
  ghost predicate Waits(s: State, id: nat, n: nat, t: int, wait: nat) {
    && id in s.rows && s.rows[id].retryCount >= n
    && (!Terminal(s.rows[id]) ==> s.rows[id].nextRetryAt.Some? && s.rows[id].nextRetryAt.value >= t + wait)
  }

  /** The delay after the n-th failure. */
  function Wait(n: nat): nat {
    if n == 1 then 2_000_000 else if n == 2 then 4_000_000 else if n == 3 then 8_000_000 else 16_000_000
  }

  lemma NextWaitIsLonger(r: Row, error: string, now: int, n: nat, t: int)
    requires 1 <= n && n <= r.retryCount && t <= now
    ensures var r' := MarkedFailed(r, error, now);
      r'.status == Pending ==> r'.nextRetryAt.Some? && r'.nextRetryAt.value >= t + Wait(n)
  {
    DelaysDouble();
  }

  lemma WaitsStep(s: State, a: Action, id: nat, n: nat, t: int)
    requires RowsInv(s) && 1 <= n && Waits(s, id, n, t, Wait(n)) && MarksNotBefore(s, a, id, t)
    ensures Waits(Step(s, a), id, n, t, Wait(n))
  {
    if a.Mark? && Enabled(s, a) && s.workers[a.w].batch[0] == id && s.workers[a.w].Refused? {
      NextWaitIsLonger(s.rows[id], s.workers[a.w].error, a.now, n, t);
    }
  }

  lemma {:induction false} WaitsRun(s: State, actions: seq<Action>, id: nat, n: nat, t: int)
    requires RowsInv(s) && 1 <= n && Waits(s, id, n, t, Wait(n)) && NoMarkBefore(s, actions, id, t)
    ensures RowsInv(Exec(s, actions)) && Waits(Exec(s, actions), id, n, t, Wait(n))
  {
    if actions != [] {
      var init, last := actions[..|actions| - 1], actions[|actions| - 1];
      assert forall k :: 0 <= k < |init| ==> init[..k] == actions[..k];
      WaitsRun(s, init, id, n, t);
      RowsInvStep(Exec(s, init), last);
      WaitsStep(Exec(s, init), last, id, n, t);
    }
  }

  lemma FailureWaits(s: State, fail: Action, id: nat, t: int)
    requires RowsInv(s) && FailsAt(s, fail, id, t)
    ensures var s' := Step(s, fail);
      RowsInv(s') && id in s'.rows && s'.rows[id].retryCount >= 1
      && Waits(s', id, s'.rows[id].retryCount, t, Wait(s'.rows[id].retryCount))
  {
    assert WorkerOk(s, s.workers[fail.w]);
    RowsInvStep(s, fail);
    DelaysDouble();
  }

  lemma ClaimComesLater(s: State, claim: Action, id: nat, n: nat, t: int)
    requires Waits(s, id, n, t, Wait(n)) && claim.Claim? && Enabled(s, claim) && id in claim.batch
    ensures claim.now >= t + Wait(n)
  {
  }

  /** The state after the failed send has been marked. */
  ghost function AfterFailure(s0: State, before: seq<Action>, fail: Action): State {
    Step(Exec(s0, before), fail)
  }

  /**
   * In every run: after the mark of a failed send at time t that leaves retry_count n, whatever
   * else happens, no claim of the event is made before t + 2, 4, 8 or 16 seconds for n = 1, 2, 3, 4,
   * unless a worker marks the event in between with a clock that is behind t.
   */
  lemma RetriesWait(s0: State, before: seq<Action>, fail: Action, between: seq<Action>, claim: Action, id: nat, t: int)
    requires Initial(s0) && FailsAt(Exec(s0, before), fail, id, t)
    requires NoMarkBefore(AfterFailure(s0, before, fail), between, id, t)
    requires claim.Claim? && id in claim.batch && Enabled(Exec(AfterFailure(s0, before, fail), between), claim)
    ensures id in AfterFailure(s0, before, fail).rows
    ensures var n := AfterFailure(s0, before, fail).rows[id].retryCount;
      && n >= 1
      && (n == 1 ==> claim.now >= t + 2_000_000)
      && (n == 2 ==> claim.now >= t + 4_000_000)
      && (n == 3 ==> claim.now >= t + 8_000_000)
      && (n >= 4 ==> claim.now >= t + 16_000_000)
  {
    RowsAlwaysCoherent(s0, before);
    FailureWaits(Exec(s0, before), fail, id, t);
    var s1 := AfterFailure(s0, before, fail);
    WaitsRun(s1, between, id, s1.rows[id].retryCount, t);
    ClaimComesLater(Exec(s1, between), claim, id, s1.rows[id].retryCount, t);
  }
}
