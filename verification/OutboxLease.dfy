/**
 * What the 30-second claim timeout buys. If every mark happens while its claim is younger than
 * the timeout, a row has at most one live holder and PUBLISHED and FAILED are final; a mark by
 * an outlived claim is exactly what can undo them.
 */
module OutboxLease {
  import opened Prelude
  import opened LedgerTables
  import opened OutboxRows
  import opened OutboxMachine

  predicate Busy(w: Worker) { w.Holding? || w.Sent? || w.Refused? }

  /** Worker w still has the event to mark and its claim has not outlived the timeout. */
  ghost predicate Holds(s: State, w: nat, id: nat) {
    && w < |s.workers| && Busy(s.workers[w]) && id in s.workers[w].batch
    && s.clock < s.workers[w].claimedAt + CLAIM_TIMEOUT
  }

  /** The hypothesis on a schedule: no mark comes later than the claim allows. */
  ghost predicate OnTime(s: State, a: Action) {
    a.Mark? && Enabled(s, a) ==> s.clock < s.workers[a.w].claimedAt + CLAIM_TIMEOUT
  }

  ghost predicate AllOnTime(s: State, actions: seq<Action>) {
    forall k :: 0 <= k < |actions| ==> OnTime(Exec(s, actions[..k]), actions[k])
  }

  ghost predicate HolderOwnsRow(s: State) {
    forall w: nat, id: nat :: Holds(s, w, id) ==>
      id in s.rows && s.rows[id].status == Processing && s.rows[id].claimedAt == Some(s.workers[w].claimedAt)
  }

  ghost predicate HoldersUnique(s: State) {
    forall v: nat, w: nat, id: nat :: Holds(s, v, id) && Holds(s, w, id) ==> v == w
  }

  ghost predicate LeaseInv(s: State) { RowsInv(s) && HolderOwnsRow(s) && HoldersUnique(s) }

  /** A live holder after a step was one before it, unless the step is its own claim. */
  lemma HoldersComeFromClaims(s: State, a: Action, w: nat, id: nat)
    requires RowsInv(s) && Holds(Step(s, a), w, id)
    ensures || (Holds(s, w, id) && Step(s, a).workers[w].claimedAt == s.workers[w].claimedAt)
            || (a.Claim? && Enabled(s, a) && a.w == w && id in a.batch && Step(s, a).workers[w].claimedAt == a.now)
  {
    assert w < |s.workers| ==> WorkerOk(s, s.workers[w]);
  }

  /** What a live holder holds, only its own marks can take away. */
  lemma HeldRowIsKept(s: State, a: Action, w: nat, id: nat)
    requires LeaseInv(s) && OnTime(s, a) && Holds(s, w, id) && Holds(Step(s, a), w, id)
    ensures Step(s, a).rows[id] == s.rows[id]
  {
    assert WorkerOk(s, s.workers[w]);
    if a.Mark? && Enabled(s, a) && id == s.workers[a.w].batch[0] {
      assert Holds(s, a.w, id);
    }
  }

  lemma LeaseInvStep(s: State, a: Action)
    requires LeaseInv(s) && OnTime(s, a)
    ensures LeaseInv(Step(s, a))
  {
    var s' := Step(s, a);
    RowsInvStep(s, a);
    forall w: nat, id: nat | Holds(s', w, id)
      ensures id in s'.rows && s'.rows[id].status == Processing
        && s'.rows[id].claimedAt == Some(s'.workers[w].claimedAt)
    {
      HoldersComeFromClaims(s, a, w, id);
      if Holds(s, w, id) && !(a.Claim? && Enabled(s, a) && a.w == w) {
        HeldRowIsKept(s, a, w, id);
      }
    }
    forall v: nat, w: nat, id: nat | Holds(s', v, id) && Holds(s', w, id) ensures v == w {
      HoldersComeFromClaims(s, a, v, id);
      HoldersComeFromClaims(s, a, w, id);
    }
  }

  /** With marks on time, PUBLISHED and FAILED rows never change again. */
  lemma TerminalStep(s: State, a: Action, id: nat)
    requires LeaseInv(s) && OnTime(s, a) && id in s.rows && Terminal(s.rows[id])
    ensures id in Step(s, a).rows && Step(s, a).rows[id] == s.rows[id]
  {
    if a.Mark? && Enabled(s, a) && id == s.workers[a.w].batch[0] {
      assert Holds(s, a.w, id);
    }
  }

  /** Exclusive leases on every run whose marks are on time. */
  lemma {:induction false} LeasesAreExclusive(s0: State, actions: seq<Action>)
    requires Initial(s0) && AllOnTime(s0, actions)
    ensures LeaseInv(Exec(s0, actions))
  {
    if actions != [] {
      var init := actions[..|actions| - 1];
      assert AllOnTime(s0, init) by {
        assert forall k :: 0 <= k < |init| ==> init[..k] == actions[..k];
      }
      LeasesAreExclusive(s0, init);
      assert OnTime(Exec(s0, init), actions[|actions| - 1]);
      LeaseInvStep(Exec(s0, init), actions[|actions| - 1]);
    }
  }

  /** Once PUBLISHED or FAILED, always so: at any two moments of an on-time run. */
  lemma {:induction false} TerminalForever(s0: State, actions: seq<Action>, k: nat, id: nat)
    requires Initial(s0) && AllOnTime(s0, actions) && k <= |actions|
    requires id in Exec(s0, actions[..k]).rows && Terminal(Exec(s0, actions[..k]).rows[id])
    ensures id in Exec(s0, actions).rows && Exec(s0, actions).rows[id] == Exec(s0, actions[..k]).rows[id]
  {
    if k == |actions| {
      assert actions[..k] == actions;
    } else {
      var init := actions[..|actions| - 1];
      assert forall j :: 0 <= j <= |init| ==> init[..j] == actions[..j];
      assert AllOnTime(s0, init);
      TerminalForever(s0, init, k, id);
      LeasesAreExclusive(s0, init);
      assert OnTime(Exec(s0, init), actions[|actions| - 1]);
      TerminalStep(Exec(s0, init), actions[|actions| - 1], id);
    }
  }

  /** The step marks event id. */
  ghost predicate Marks(s: State, a: Action, id: nat) {
    a.Mark? && Enabled(s, a) && s.workers[a.w].batch[0] == id
  }

  /**
   * Without that hypothesis the statement fails, and exactly so. A finished row changes status or
   * count precisely when a failed send of it is marked, or a FAILED one is marked published; it
   * is open again precisely when a failed send is marked with retries to spare; and a step that
   * touches it at all is the late mark of a claim that has outlived the timeout.
   */
  lemma OnlyMarksUndoTerminal(s: State, a: Action, id: nat)
    requires RowsInv(s) && id in s.rows && Terminal(s.rows[id])
    ensures var r, r' := s.rows[id], Step(s, a).rows[id];
      && ((r'.status != r.status || r'.retryCount != r.retryCount)
          <==> Marks(s, a, id) && (s.workers[a.w].Refused? || r.status == Failed))
      && (!Terminal(r') <==> Marks(s, a, id) && s.workers[a.w].Refused? && r.retryCount + 1 < MAX_RETRIES)
      && (LeaseInv(s) && r' != r ==> Marks(s, a, id) && !OnTime(s, a))
  {
    assert RowOk(s, id);
    if LeaseInv(s) && OnTime(s, a) { TerminalStep(s, a, id); }
  }

  // ---------------------------------------------------------------- a run that reopens a published event

  const LATE: nat := CLAIM_TIMEOUT + SECOND

  /** Worker 0 claims the event, its send fails, and it falls asleep for 31 seconds. */
  function Oversleep(e: Event): seq<Action> {
    [Emit(e), Recover(0, [], 0), Claim(0, [e.id], 0), Send(0, Raised("timed out")), Tick(LATE)]
  }

  /** Worker 1 recovers, claims, sends and publishes the event; then worker 0 wakes up and marks its failure. */
  function WakeUp(e: Event): seq<Action> {
    [Recover(1, [e.id], LATE), Claim(1, [e.id], LATE), Send(1, Acked(0)), Mark(1, LATE), Mark(0, LATE)]
  }

  const TWO_WORKERS: State := State(map[], [[]], [Idle, Idle], 0)

  lemma ExecFive(s: State, run: seq<Action>)
    requires |run| == 5
    ensures Exec(s, run[..4]) == Step(Step(Step(Step(s, run[0]), run[1]), run[2]), run[3])
    ensures Exec(s, run) == Step(Exec(s, run[..4]), run[4])
  {
    assert run[..1][..0] == [] && run[..2][..1] == run[..1] && run[..3][..2] == run[..2] && run[..4][..3] == run[..3];
    assert Exec(s, run[..1]) == Step(s, run[0]);
    assert Exec(s, run[..2]) == Step(Exec(s, run[..1]), run[1]);
    assert Exec(s, run[..3]) == Step(Exec(s, run[..2]), run[2]);
    assert Exec(s, run[..4]) == Step(Exec(s, run[..3]), run[3]);
  }

  lemma OversleepLeaves(e: Event)
    ensures Exec(TWO_WORKERS, Oversleep(e))
         == State(map[e.id := Claimed(NewRow(e, 0), 0)], [[]], [Refused([e.id], 0, "timed out"), Idle], LATE)
  {
    var r := NewRow(e, 0);
    ExecFive(TWO_WORKERS, Oversleep(e));
    var s1 := State(map[e.id := r], [[]], [Idle, Idle], 0);
    assert Step(TWO_WORKERS, Emit(e)) == s1;
    var s2 := State(map[e.id := r], [[]], [Swept, Idle], 0);
    assert Step(s1, Recover(0, [], 0)) == s2;
    var s3 := State(map[e.id := Claimed(r, 0)], [[]], [Holding([e.id], 0), Idle], 0);
    assert Step(s2, Claim(0, [e.id], 0)) == s3;
  }

  lemma WakeUpReopens(e: Event, s: State)
    requires s == State(map[e.id := Claimed(NewRow(e, 0), 0)], [[]], [Refused([e.id], 0, "timed out"), Idle], LATE)
    ensures var published, reopened := Exec(s, WakeUp(e)[..4]), Exec(s, WakeUp(e));
      && e.id in published.rows && published.rows[e.id].status == Published
      && e.id in reopened.rows && reopened.rows[e.id].status == Pending
  {
    var r := Claimed(NewRow(e, 0), 0);
    ExecFive(s, WakeUp(e));
    var s1 := s.(rows := map[e.id := Recovered(r)], workers := s.workers[1 := Swept]);
    assert Step(s, Recover(1, [e.id], LATE)) == s1;
    var s2 := s.(rows := map[e.id := Claimed(Recovered(r), LATE)], workers := s.workers[1 := Holding([e.id], LATE)]);
    assert Step(s1, Claim(1, [e.id], LATE)) == s2;
  }

  /** A reachable run in which a PUBLISHED event becomes PENDING again. */
  lemma PublishedCanReopen(e: Event)
    ensures Initial(TWO_WORKERS)
    ensures var published, reopened :=
              Exec(TWO_WORKERS, Oversleep(e) + WakeUp(e)[..4]), Exec(TWO_WORKERS, Oversleep(e) + WakeUp(e));
      && e.id in published.rows && published.rows[e.id].status == Published
      && e.id in reopened.rows && reopened.rows[e.id].status == Pending
  {
    OversleepLeaves(e);
    WakeUpReopens(e, Exec(TWO_WORKERS, Oversleep(e)));
    ExecConcat(TWO_WORKERS, Oversleep(e), WakeUp(e)[..4]);
    ExecConcat(TWO_WORKERS, Oversleep(e), WakeUp(e));
  }
}
