/**
 * Reachable runs, free of crashes and of Redis failures, that show what calls which overlap can
 * come to: a repeated transfer refused for lack of funds, a cache that is wrong for good, and a
 * past balance that changes after it has been read.
 */
module LedgerWitnesses {
  import opened Prelude
  import opened Money
  import opened LedgerTables
  import opened LedgerMachine
  import opened LedgerLocks
  import opened LedgerFunds
  import opened LedgerRefinement
  import opened LedgerService
  import opened LedgerTheorems
  import opened LedgerRaces
  import opened LedgerStaleness

  // ---------------------------------------------------------------- the racer that runs out of funds

  /** a is to receive amount; two calls with one key each want to move all of it to b. */
  ghost predicate Twins(s: State, a: AccountId, b: AccountId, amount: string, key: string, second: Pc) {
    && |s.procs| == 3
    && s.procs[1] == Proc(Transfer(a, b, amount, key), Start) && s.procs[2] == Proc(Transfer(a, b, amount, key), second)
    && RoundCents(s.c.decimal(amount)) as real == s.c.decimal(amount) > 0.0
    && a != b && a != s.c.system && s.c.system in s.accounts
    && a in s.accounts && s.accounts[a] == Account(Active, "INR")
    && b in s.accounts && s.accounts[b] == Account(Active, "INR")
  }

  /** a holds exactly amount and the key is unused. */
  ghost predicate FundedTwins(s: State, a: AccountId, b: AccountId, amount: string, key: string, second: Pc) {
    && Twins(s, a, b, amount, key, second) && Calm(s) && !KeyTaken(s.tables.txns, key)
    && Balance(s.tables.entries, a) == RoundCents(s.c.decimal(amount))
  }

  /** The winner has taken everything; the other call has only seen that the key was unused. */
  ghost predicate Emptied(s: State, key: string) {
    && Calm(s) && |s.procs| == 3 && s.procs[2].req.Transfer? && s.procs[2].req.key == key && s.procs[2].pc == KeyAbsent
    && KeyTaken(s.tables.txns, key)
    && Refusal(s.c, s.accounts, s.tables.entries, s.procs[2].req) == Some(InsufficientFunds)
  }

  lemma FirstTheDeposit(s: State, a: AccountId, b: AccountId, amount: string, key: string)
    returns (actions: seq<Action>)
    requires Initial(s) && Twins(s, a, b, amount, key, Start) && s.procs[0] == Proc(Deposit(a, amount), Start)
    ensures Undisrupted(actions) && FundedTwins(Exec(s, actions), a, b, amount, key, Start)
  {
    assert Calm(s);
    assert Verdict(s, s.procs[0].req) == Posted(0);
    actions := PostAlone(s, 0);
  }

  lemma ThenTheFastCheck(s: State, a: AccountId, b: AccountId, amount: string, key: string)
    requires FundedTwins(s, a, b, amount, key, Start)
    ensures FundedTwins(Exec(s, [Run(2, Works)]), a, b, amount, key, KeyAbsent)
  {
    var r := Run(2, Works);
    TypedStep(s, r);
    LockInvStep(s, r);
    OneStep(s, r);
  }

  lemma WinnerMayPost(s: State, a: AccountId, b: AccountId, amount: string, key: string)
    requires FundedTwins(s, a, b, amount, key, KeyAbsent)
    ensures Verdict(s, s.procs[1].req).Posted?
  {
  }

  lemma WinnerLeavesNothing(s: State, s': State, a: AccountId, b: AccountId, amount: string, key: string)
    requires FundedTwins(s, a, b, amount, key, KeyAbsent) && PostedAlone(s, s', 1) && Calm(s')
    ensures Emptied(s', key)
  {
    assert s.tables.nextId in s'.tables.txns && s'.tables.txns[s.tables.nextId].key == Some(key);
    RoundingLaws(s.c.decimal(amount), 0.0, 0);
    assert Balance(s'.tables.entries, a) == 0;
  }

  lemma ThenTheWinner(s: State, a: AccountId, b: AccountId, amount: string, key: string) returns (actions: seq<Action>)
    requires FundedTwins(s, a, b, amount, key, KeyAbsent)
    ensures Undisrupted(actions) && Emptied(Exec(s, actions), key)
  {
    WinnerMayPost(s, a, b, amount, key);
    actions := PostAlone(s, 1);
    WinnerLeavesNothing(s, Exec(s, actions), a, b, amount, key);
  }

  lemma ThenTheLoser(s: State, key: string) returns (actions: seq<Action>)
    requires Emptied(s, key)
    ensures OnlyCall(actions, 2) && |Exec(s, actions).procs| > 2
    ensures Exec(s, actions).procs[2].pc == Done(Failed(InsufficientFunds))
  {
    actions := LateFinishes(s, s, 2);
  }

  /** The second call has only looked its key up, and the key is committed meanwhile. */
  ghost predicate RacerIsLate(s: State, key: string) {
    |s.procs| == 3 && s.procs[2].pc == KeyAbsent && s.procs[2].req == s.procs[1].req && KeyTaken(s.tables.txns, key)
  }

  lemma LeadUp(s0: State, a: AccountId, b: AccountId, amount: string, key: string) returns (before: seq<Action>)
    requires Initial(s0) && Twins(s0, a, b, amount, key, Start) && s0.procs[0] == Proc(Deposit(a, amount), Start)
    ensures Undisrupted(before) && Emptied(Exec(s0, before), key)
  {
    var deposit := FirstTheDeposit(s0, a, b, amount, key);
    var check := [Run(2, Works)];
    ThenTheFastCheck(Exec(s0, deposit), a, b, amount, key);
    ExecConcat(s0, deposit, check);
    var win := ThenTheWinner(Exec(s0, deposit + check), a, b, amount, key);
    ExecConcat(s0, deposit + check, win);
    before := deposit + check + win;
  }

  /**
   * Two calls with one key and one request: the second passes the fast check, the first posts,
   * and the second, running on, answers "Insufficient funds".
   */
  lemma RacerCanLackFunds(s0: State, a: AccountId, b: AccountId, amount: string, key: string)
    returns (before: seq<Action>, after: seq<Action>)
    requires Initial(s0) && Twins(s0, a, b, amount, key, Start) && s0.procs[0] == Proc(Deposit(a, amount), Start)
    ensures Undisrupted(before) && OnlyCall(after, 2)
    ensures RacerIsLate(Exec(s0, before), key)
    ensures var s := Exec(s0, before + after); |s.procs| > 2 && s.procs[2].pc == Done(Failed(InsufficientFunds))
  {
    before := LeadUp(s0, a, b, amount, key);
    after := ThenTheLoser(Exec(s0, before), key);
    ExecConcat(s0, before, after);
    CallsStay(s0, before);
  }

  lemma CallsStay(s0: State, actions: seq<Action>)
    requires Initial(s0)
    ensures SameCalls(s0, Exec(s0, actions))
  {
    SoundInitially(s0);
    SoundRun(s0, actions);
  }

  // ---------------------------------------------------------------- the stale cache

  /** SYSTEM_CASH, two customers, and calls that have not started. */
  ghost predicate World(s: State, a: AccountId, b: AccountId) {
    && Initial(s) && a != b && a != s.c.system && b != s.c.system
    && s.c.system in s.accounts
    && a in s.accounts && s.accounts[a] == Account(Active, "INR")
    && b in s.accounts && s.accounts[b] == Account(Active, "INR")
  }

  /** The calls of the run: a deposit to a, and a balance query of a. */
  ghost predicate DepositAndQuery(s: State, a: AccountId, amount: string) {
    s.procs == [Proc(Deposit(a, amount), Start), Proc(BalanceQuery(a), Start)]
  }

  lemma ThreeSteps(s: State, r: Action)
    ensures Exec(s, [r, r, r]) == Step(Step(Step(s, r), r), r)
  {
    OneStep(s, r);
    OneStep(Step(s, r), r);
    OneStep(Step(Step(s, r), r), r);
    ExecConcat(s, [r], [r]);
    ExecConcat(s, [r] + [r], [r]);
    assert [r, r, r] == [r] + [r] + [r];
  }

  lemma QueryMisses(s: State, q: nat, a: AccountId)
    requires q < |s.procs| && s.procs[q] == Proc(BalanceQuery(a), Start) && s.cache == map[]
    ensures Step(s, Run(q, Works)) == WithPc(s, q, CacheMissed)
  {
  }

  lemma QuerySeesRow(s: State, q: nat, a: AccountId)
    requires q < |s.procs| && s.procs[q] == Proc(BalanceQuery(a), CacheMissed) && a in s.accounts
    ensures Step(s, Run(q, Works)) == WithPc(s, q, RowSeen)
  {
  }

  lemma QuerySums(s: State, q: nat, a: AccountId)
    requires q < |s.procs| && s.procs[q] == Proc(BalanceQuery(a), RowSeen) && s.tables.entries == []
    ensures Step(s, Run(q, Works)) == WithPc(s, q, BalanceRead(0))
  {
  }

  lemma LatestPcCounts(s: State, q: nat, pc: Pc, later: Pc)
    requires q < |s.procs|
    ensures WithPc(WithPc(s, q, pc), q, later) == WithPc(s, q, later)
  {
    assert s.procs[q := s.procs[q].(pc := pc)][q := s.procs[q].(pc := later)] == s.procs[q := s.procs[q].(pc := later)];
  }

  /** The query has read balance 0 and not yet written it to Redis. */
  lemma QueryReads(s: State, q: nat, a: AccountId)
    requires q < |s.procs| && s.procs[q] == Proc(BalanceQuery(a), Start) && a in s.accounts && s.cache == map[]
    requires s.tables.entries == []
    ensures Exec(s, [Run(q, Works), Run(q, Works), Run(q, Works)]) == WithPc(s, q, BalanceRead(0))
  {
    var r := Run(q, Works);
    QueryMisses(s, q, a);
    QuerySeesRow(WithPc(s, q, CacheMissed), q, a);
    LatestPcCounts(s, q, CacheMissed, RowSeen);
    QuerySums(WithPc(s, q, RowSeen), q, a);
    LatestPcCounts(s, q, RowSeen, BalanceRead(0));
    ThreeSteps(s, r);
  }

  /** The whole deposit runs while the query waits between its read and its write. */
  lemma DepositRuns(s0: State, a: AccountId, b: AccountId, amount: string) returns (actions: seq<Action>)
    requires World(s0, a, b) && DepositAndQuery(s0, a, amount)
    ensures OnlyCall(actions, 0)
    ensures AboutToGoStale(Exec(WithPc(s0, 1, BalanceRead(0)), actions), a, RoundCents(s0.c.decimal(amount)))
  {
    var s1 := WithPc(s0, 1, BalanceRead(0));
    assert Typed(s1) && LockInv(s1);
    assert Verdict(s1, s1.procs[0].req) == Posted(0);
    actions := SoloFinishes(s1, s1, 0);
    PostedBalance(s1, Exec(s1, actions), 0, a);
  }

  /**
   * The deposit is over, its delete included; the ledger says cents, the query has read 0 and its
   * write is outstanding.
   */
  ghost predicate AboutToGoStale(s: State, a: AccountId, cents: int) {
    && |s.procs| == 2 && s.procs[0].pc.Done? && s.procs[1] == Proc(BalanceQuery(a), BalanceRead(0))
    && Balance(s.tables.entries, a) == cents
  }

  /** Every call is over, Redis holds 0 for a and the ledger says cents. */
  ghost predicate Stale(s: State, a: AccountId, cents: int) {
    AllFinished(s) && a in s.cache && s.cache[a] == 0 && Balance(s.tables.entries, a) == cents
  }

  /** The query writes what it read. */
  lemma QueryWrites(s: State, a: AccountId, cents: int)
    requires AboutToGoStale(s, a, cents)
    ensures Stale(Exec(s, [Run(1, Works)]), a, cents)
  {
    OneStep(s, Run(1, Works));
  }

  lemma StaleForGood(s: State, a: AccountId, cents: int)
    requires Stale(s, a, cents) && cents > 0
    ensures WrongForGood(s, a)
  {
  }

  /**
   * A deposit commits and deletes the cache key between a reader's read and its write: nobody
   * crashed, Redis never failed, and it now disagrees with the ledger, with no expiry.
   */
  lemma CacheCanStayStale(s0: State, a: AccountId, b: AccountId, amount: string) returns (actions: seq<Action>)
    requires World(s0, a, b) && DepositAndQuery(s0, a, amount) && RoundCents(s0.c.decimal(amount)) > 0
    ensures Undisrupted(actions)
    ensures Stale(Exec(s0, actions), a, RoundCents(s0.c.decimal(amount))) && WrongForGood(Exec(s0, actions), a)
  {
    var read, write := [Run(1, Works), Run(1, Works), Run(1, Works)], [Run(1, Works)];
    QueryReads(s0, 1, a);
    var deposit := DepositRuns(s0, a, b, amount);
    ExecConcat(s0, read, deposit);
    QueryWrites(Exec(s0, read + deposit), a, RoundCents(s0.c.decimal(amount)));
    ExecConcat(s0, read + deposit, write);
    actions := read + deposit + write;
    StaleForGood(Exec(s0, actions), a, RoundCents(s0.c.decimal(amount)));
  }

  // ---------------------------------------------------------------- the past that changes

  /** The deposit has inserted its rows, stamped with the instant at which the run began, and has not committed. */
  lemma DepositInserts(s: State, a: AccountId, b: AccountId, amount: string)
    requires World(s, a, b) && s.procs == [Proc(Deposit(a, amount), Start)]
    ensures Exec(s, [Run(0, Works), Run(0, Works), Run(0, Works), Run(0, Works)]) ==
      WithPc(s, 0, Inserted(s.clock, s.clock))
  {
    var r, now := Run(0, Works), s.clock;
    var q := s.procs[0];
    var s1, s2, s3 := WithPc(s, 0, AccountRead), WithPc(s, 0, Cleared(now)), WithPc(s, 0, Stamped(now, now));
    assert Step(s, r) == s1;
    assert Step(s1, r) == s2;
    assert Step(s2, r) == s3;
    ThreeSteps(s, r);
    assert Step(s3, r) == WithPc(s, 0, Inserted(now, now));
    OneStep(s3, r);
    ExecConcat(s, [r, r, r], [r]);
    assert [r, r, r, r] == [r, r, r] + [r];
  }

  lemma CommitChangesThePast(s: State, a: AccountId, amount: string, t: int)
    requires Typed(s) && TimeInv(s) && |s.procs| == 1 && s.procs[0].req == Deposit(a, amount) && s.procs[0].pc.Inserted?
    requires s.procs[0].pc.at <= t && a != s.c.system
    ensures BalanceThen(Step(s, Run(0, Works)), a, t) == BalanceThen(s, a, t) + RoundCents(s.c.decimal(amount))
  {
    DecideTyped(s, s.procs[0], Works);
    CommitMovesMoney(s, 0, MoveOf(s, 0, Works), a, t);
  }

  /** The balance at t is 0 when it is asked for after t has passed, and positive later: nobody crashed meanwhile. */
  lemma PastCanChange(s0: State, a: AccountId, b: AccountId, amount: string, t: int) returns (before: seq<Action>)
    requires World(s0, a, b) && s0.procs == [Proc(Deposit(a, amount), Start)]
    requires RoundCents(s0.c.decimal(amount)) > 0 && t == s0.clock
    ensures forall i :: 0 <= i < |before| ==> before[i].Tick? || before[i] == Run(0, Works)
    ensures var s := Exec(s0, before);
      && t < s.clock && BalanceThen(s, a, t) == 0
      && BalanceThen(Step(s, Run(0, Works)), a, t) > 0
  {
    var r := Run(0, Works);
    var inserts := [r, r, r, r];
    DepositInserts(s0, a, b, amount);
    var s4 := WithPc(s0, 0, Inserted(t, t));
    OneStep(s4, Tick(1));
    ExecConcat(s0, inserts, [Tick(1)]);
    before := inserts + [Tick(1)];
    CommitChangesThePast(s4.(clock := t + 1), a, amount, t);
  }
}
