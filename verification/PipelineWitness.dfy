/**
 * A run from the very start in which a customer who never transferred loses a deposit to the
 * projection: somebody else's transfer was published before it.
 */
module PipelineWitness {
  import opened Prelude
  import opened Money
  import opened LedgerTables
  import opened LedgerBooks
  import L = LedgerMachine
  import LL = LedgerLocks
  import LF = LedgerRefinement
  import LT = LedgerTheorems
  import R = OutboxRows
  import O = OutboxMachine
  import opened Projections
  import C = ConsumerMachine
  import opened Pipeline
  import opened PipelineDrain

  // ---------------------------------------------------------------- three postings

  /** Who takes part: a sends amount to b under the key, and d is somebody else. */
  datatype Story = Story(a: AccountId, b: AccountId, d: AccountId, amount: string, key: string)

  /** a and d are given amount each; in between, a sends all of it to b. */
  ghost predicate ThreeCalls(l: L.State, t: Story) {
    && |l.procs| == 3
    && l.procs[0].req == Deposit(t.a, t.amount)
    && l.procs[1].req == Transfer(t.a, t.b, t.amount, t.key)
    && l.procs[2].req == Deposit(t.d, t.amount)
    && RoundCents(l.c.decimal(t.amount)) as real == l.c.decimal(t.amount) > 0.0
    && t.a != t.b && t.d != t.a && t.d != t.b && l.c.system !in {t.a, t.b, t.d} && l.c.system in l.accounts
    && forall x :: x in {t.a, t.b, t.d} ==> x in l.accounts && l.accounts[x] == L.Account(L.Active, "INR")
  }

  /** The calls from number n on have not started, the earlier ones are over; nothing is held. */
  ghost predicate UpTo(l: L.State, n: nat) {
    && LF.Calm(l) && |l.procs| == 3 && n <= 3
    && (forall p :: 0 <= p < n ==> l.procs[p].pc.Done?)
    && (forall p :: n <= p < 3 ==> l.procs[p].pc == L.Start)
  }

  /** After n postings: what the outbox holds, and what a and d own. */
  ghost predicate Told(l: L.State, t: Story, n: nat) {
    var cents, rows := RoundCents(l.c.decimal(t.amount)), l.tables.outbox;
    && ThreeCalls(l, t) && UpTo(l, n)
    && |rows| == n && l.tables.nextId == 2 * n
    && (n > 1 ==> rows[1].id == 3 && rows[1].kind == TransferPosted)
    && (n > 2 ==> rows[2].id == 5 && rows[2].kind == DepositPosted && Party(rows[2].payload, KeyAccountId) == Some(t.d))
    && (forall i :: 0 <= i < n ==> Effect(l.c, rows[i], t.d) == if i == 2 then cents else 0)
    && (n == 1 ==> Balance(l.tables.entries, t.a) == cents && !KeyTaken(l.tables.txns, t.key))
    && Balance(l.tables.entries, t.d) == if n == 3 then cents else 0
  }

  /** Each call in its turn is accepted. */
  lemma NextIsAccepted(l: L.State, t: Story, n: nat)
    requires Told(l, t, n) && n < 3
    ensures Posts(l.procs[n].req) && LF.Verdict(l, l.procs[n].req).Posted?
  {
  }

  lemma DeltaOfD(l: L.State, t: Story, n: nat)
    requires ThreeCalls(l, t) && n < 3
    ensures Posts(l.procs[n].req)
    ensures Delta(l.c, l.procs[n].req, t.d) == if n == 2 then RoundCents(l.c.decimal(t.amount)) else 0
  {
  }

  /** The row a posting adds tells of d what the posting does to d. */
  lemma NextRowTells(l: L.State, l': L.State, t: Story, n: nat)
    requires Told(l, t, n) && n < 3 && LF.PostedAlone(l, l', n)
    ensures |l'.tables.outbox| == n + 1 && l'.tables.outbox[..n] == l.tables.outbox
    ensures Effect(l.c, l'.tables.outbox[n], t.d) == if n == 2 then RoundCents(l.c.decimal(t.amount)) else 0
  {
    var req, id, currency := l.procs[n].req, l.tables.nextId, L.CurrencyOf(l.accounts, l.procs[n].req);
    var row := Event(id + 1, id, KindOf(req), PayloadOf(req, id, currency));
    PayloadTellsTheEntries(l.c, req, id, currency, t.d);
    assert l'.tables.outbox == l.tables.outbox + [row];
    DeltaOfD(l, t, n);
  }

  /** And takes the story one step further. */
  lemma NextIsTold(l: L.State, l': L.State, t: Story, n: nat)
    requires Told(l, t, n) && n < 3 && LF.PostedAlone(l, l', n) && LF.Calm(l')
    ensures Told(l', t, n + 1)
  {
    NextRowTells(l, l', t, n);
    assert forall i :: 0 <= i < n ==> l'.tables.outbox[i] == l'.tables.outbox[..n][i];
  }

  lemma TellOne(l: L.State, t: Story, n: nat) returns (actions: seq<L.Action>)
    requires Told(l, t, n) && n < 3
    ensures L.Undisrupted(actions) && Told(L.Exec(l, actions), t, n + 1)
  {
    NextIsAccepted(l, t, n);
    actions := LF.PostAlone(l, n);
    NextIsTold(l, L.Exec(l, actions), t, n);
  }

  lemma {:induction false} Tell(l: L.State, t: Story, n: nat) returns (actions: seq<L.Action>)
    requires Told(l, t, 0) && n <= 3
    ensures L.Undisrupted(actions) && Told(L.Exec(l, actions), t, n)
  {
    actions := [];
    if n > 0 {
      var before := Tell(l, t, n - 1);
      var last := TellOne(L.Exec(l, before), t, n - 1);
      L.ExecConcat(l, before, last);
      actions := before + last;
    }
  }

  lemma StoryBegins(l: L.State, t: Story)
    requires L.Initial(l) && ThreeCalls(l, t)
    ensures Told(l, t, 0)
  {
  }

  // ---------------------------------------------------------------- through the pipeline

  function Lift(ls: seq<L.Action>): seq<Action> {
    seq(|ls|, n requires 0 <= n < |ls| => LedgerAct(ls[n]))
  }

  ghost predicate AllPending(rows: O.Rows) {
    forall id :: id in rows ==> rows[id].status == R.Pending
  }

  /** The ledger has moved; workers and consumers have not, and every row is new. */
  ghost predicate OnlyLedgerMoved(s: State, s': State) {
    && Inv(s') && s'.sink == s.sink && s'.outbox.log == s.outbox.log && s'.outbox.workers == s.outbox.workers
    && AllPending(s'.outbox.rows)
  }

  lemma WithLedgerAddsPending(s: State, ledger: L.State)
    requires AllPending(s.outbox.rows)
    ensures var s' := WithLedger(s, ledger);
      && s'.ledger == ledger && s'.sink == s.sink && s'.outbox.log == s.outbox.log
        && s'.outbox.workers == s.outbox.workers
      && AllPending(s'.outbox.rows)
  {
  }

  lemma LedgerStepAddsPending(s: State, l: L.Action)
    requires Inv(s) && AllPending(s.outbox.rows)
    ensures OnlyLedgerMoved(s, LedgerStep(s, l)) && LedgerStep(s, l).ledger == L.Step(s.ledger, l)
  {
    LedgerInvStep(s, l);
    WithLedgerAddsPending(s, L.Step(s.ledger, l));
  }

  lemma {:induction false} LedgerRun(s: State, ls: seq<L.Action>)
    requires Inv(s) && AllPending(s.outbox.rows)
    ensures var s' := Exec(s, Lift(ls)); OnlyLedgerMoved(s, s') && s'.ledger == L.Exec(s.ledger, ls)
  {
    if ls != [] {
      var n := |ls| - 1;
      assert Lift(ls)[..n] == Lift(ls[..n]);
      LedgerRun(s, ls[..n]);
      LedgerStepAddsPending(Exec(s, Lift(ls[..n])), ls[n]);
    }
  }

  // ---------------------------------------------------------------- a ledger at rest

  /** With every call over, the tables no longer change. */
  lemma RestingLedger(l: L.State, a: L.Action)
    requires L.Typed(l) && LL.AllFinished(l)
    ensures var l' := L.Step(l, a);
      L.Typed(l') && LL.AllFinished(l') && l'.tables == l.tables && l'.c == l.c
  {
    L.TypedStep(l, a);
    L.CommitOrQuiet(l, a);
    forall p | 0 <= p < |l.procs| ensures L.Step(l, a).procs[p].pc.Done? {
      if L.LeavesAlone(a, p) { L.OtherStep(l, a, p); }
    }
  }

  lemma {:induction false} LedgerRests(s: State, more: seq<Action>)
    requires L.Typed(s.ledger) && LL.AllFinished(s.ledger)
    ensures var l := Exec(s, more).ledger;
      L.Typed(l) && LL.AllFinished(l) && l.tables == s.ledger.tables && l.c == s.ledger.c
  {
    if more != [] {
      var init, last := more[..|more| - 1], more[|more| - 1];
      LedgerRests(s, init);
      if last.LedgerAct? { RestingLedger(Exec(s, init).ledger, last.l); }
    }
  }

  // ---------------------------------------------------------------- the loss

  /** d's deposit is published behind a's transfer, and nothing else happens in the ledger. */
  ghost predicate Lost(s: State, t: Story) {
    Inv(s) && Told(s.ledger, t, 3) && C.ShutOut(s.sink, 5)
  }

  /** The outstanding rows of d are the one deposit. */
  lemma DepositIsOutstanding(c: Config, rows: seq<Event>, processed: set<nat>, x: AccountId)
    requires |rows| == 3 && rows[2].id !in processed && Effect(c, rows[0], x) == 0 && Effect(c, rows[1], x) == 0
    ensures Outstanding(c, rows, processed, x) == Effect(c, rows[2], x)
  {
    assert rows[..2][..1] == rows[..1] && rows[..1][..0] == [];
    assert Outstanding(c, rows[..1], processed, x) == 0;
    assert Outstanding(c, rows[..2], processed, x) == 0;
  }

  /** The projection never hears of it: d owns the amount in the ledger and nothing in the projection. */
  lemma LostForGood(s: State, t: Story, more: seq<Action>)
    requires Lost(s, t) && Disciplined(s, more)
    ensures Balance(Exec(s, more).ledger.tables.entries, t.d) == RoundCents(s.ledger.c.decimal(t.amount)) > 0
    ensures BalanceIn(Exec(s, more).sink.projection, t.d) == 0
  {
    ShutOutForGood(s, more, 5);
    LedgerRests(s, more);
    var end, rows := Exec(s, more), s.ledger.tables.outbox;
    ProjectionLag(end, t.d);
    DepositIsOutstanding(s.ledger.c, rows, end.sink.processed, t.d);
  }

  /** The pipeline at its start, with these three calls to come, one partition and a worker. */
  ghost predicate Beginning(s: State, t: Story) {
    Initial(s) && ThreeCalls(s.ledger, t) && |s.outbox.log| == 1 && |s.outbox.workers| > 0
  }

  /** The three postings leave a transfer, 3, and d's deposit, 5, to be published. */
  lemma ReadyToPublish(s0: State, s: State, t: Story)
    requires Beginning(s0, t) && OnlyLedgerMoved(s0, s) && Told(s.ledger, t, 3)
    ensures CanPublish(s.outbox, 0, 3) && CanPublish(s.outbox, 0, 5) && NotSent(s.sink, 5)
    ensures s.outbox.rows[3].event.kind.TransferPosted?
  {
    var rows := s.ledger.tables.outbox;
    assert rows[1] in rows && rows[2] in rows;
  }

  lemma StoryRuns(s0: State, t: Story) returns (postings: seq<L.Action>)
    requires Beginning(s0, t)
    ensures L.Undisrupted(postings)
    ensures var s := Exec(s0, Lift(postings)); OnlyLedgerMoved(s0, s) && Told(s.ledger, t, 3)
  {
    LT.SoundInitially(s0.ledger);
    StoryBegins(s0.ledger, t);
    postings := Tell(s0.ledger, t, 3);
    LedgerRun(s0, postings);
  }

  /**
   * From the very start of the system: a's deposit, a's transfer to b and d's deposit are posted,
   * one after another, and a worker publishes the transfer and then d's deposit, which it marks
   * PUBLISHED. Nobody crashes. d never transferred anything, yet whatever happens from then on,
   * the ledger says that d owns the amount and the projection says that d owns nothing.
   */
  lemma TransferCostsBystanderADeposit(s0: State, t: Story)
    returns (postings: seq<L.Action>, publishing: seq<Action>, s: State)
    requires Beginning(s0, t)
    ensures L.Undisrupted(postings) && Leads(Exec(s0, Lift(postings)), publishing, s)
    ensures 5 in s.outbox.rows && s.outbox.rows[5].status == R.Published
    ensures forall more :: Disciplined(s, more) ==>
      && Balance(Exec(s, more).ledger.tables.entries, t.d) > 0
      && BalanceIn(Exec(s, more).sink.projection, t.d) == 0
  {
    postings := StoryRuns(s0, t);
    var s1 := Exec(s0, Lift(postings));
    ReadyToPublish(s0, s1, t);
    publishing, s := LostBehindATransfer(s1, 0, 3, 5);
    forall more | Disciplined(s, more)
      ensures Balance(Exec(s, more).ledger.tables.entries, t.d) > 0
      ensures BalanceIn(Exec(s, more).sink.projection, t.d) == 0
    {
      LostForGood(s, t, more);
    }
  }
}
