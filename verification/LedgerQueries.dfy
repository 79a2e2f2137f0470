/**
 * get_balance among other calls. Alone it does what LedgerSession.GetBalance promises; in any
 * interleaving a query that missed the cache answers with a balance from between its start and
 * its return, and whatever is cached or answered was read from the entries by some query.
 */
module LedgerQueries {
  import opened Prelude
  import opened LedgerTables
  import opened LedgerMachine
  import opened LedgerCache
  import opened LedgerTheorems

  // ---------------------------------------------------------------- run alone

  predicate Hits(s: State, a: AccountId, redis: Redis) { redis.Works? && a in s.cache }

  /** Where the query stands after the statements `redis` accompanied. */
  ghost predicate QueryAt(s0: State, s: State, p: nat, a: AccountId, redis: seq<Redis>) {
    && p < |s.procs| && s.procs[p].req == BalanceQuery(a)
    && s.tables == s0.tables && s.accounts == s0.accounts
    && var (n, pc, v) := (|redis|, s.procs[p].pc, Balance(s0.tables.entries, a));
       if n == 0 then pc == Start && s.cache == s0.cache
       else if Hits(s0, a, redis[0]) then pc == Done(BalanceIs(s0.cache[a])) && s.cache == s0.cache
       else if n == 1 then pc == CacheMissed && s.cache == s0.cache
       else if a !in s0.accounts then pc == Done(Failed(AccountNotFound)) && s.cache == s0.cache
       else if n == 2 then pc == RowSeen && s.cache == s0.cache
       else if n == 3 then pc == BalanceRead(v) && s.cache == s0.cache
       else pc == Done(BalanceIs(v)) && s.cache == if redis[3].Fails? then s0.cache else s0.cache[a := v]
  }

  lemma QueryStep(s0: State, s: State, p: nat, a: AccountId, redis: seq<Redis>, r: Redis)
    requires QueryAt(s0, s, p, a, redis)
    ensures QueryAt(s0, Step(s, Run(p, r)), p, a, redis + [r])
  {
    assert |redis| > 0 ==> (redis + [r])[0] == redis[0];
    assert |redis| > 3 ==> (redis + [r])[3] == redis[3];
  }

  lemma {:induction false} QueryAlone(s: State, p: nat, a: AccountId, redis: seq<Redis>)
    requires p < |s.procs| && s.procs[p] == Proc(BalanceQuery(a), Start)
    ensures QueryAt(s, Exec(s, Alone(p, redis)), p, a, redis)
  {
    if redis != [] {
      var init, last := redis[..|redis| - 1], redis[|redis| - 1];
      QueryAlone(s, p, a, init);
      QueryStep(s, Exec(s, Alone(p, init)), p, a, init, last);
      AloneOneMore(s, p, redis);
      assert init + [last] == redis;
    }
  }

  /**
   * A query left alone finishes within four statements: with the cached value if Redis answers and
   * has one, with "Account not found", or with the sum of the entries, which it then caches.
   */
  lemma QueryAloneAnswers(s: State, p: nat, a: AccountId, redis: seq<Redis>)
    requires p < |s.procs| && s.procs[p] == Proc(BalanceQuery(a), Start) && |redis| >= 4
    ensures var end := Exec(s, Alone(p, redis));
      && p < |end.procs|
      && end.procs[p].pc == Done(
           if redis[0].Works? && a in s.cache then BalanceIs(s.cache[a])
           else if a !in s.accounts then Failed(AccountNotFound)
           else BalanceIs(Balance(s.tables.entries, a)))
      && end.tables == s.tables
      && (!(redis[0].Works? && a in s.cache) && a in s.accounts && !redis[3].Fails? ==>
            end.cache == s.cache[a := Balance(s.tables.entries, a)])
  {
    QueryAlone(s, p, a, redis);
  }

  // ---------------------------------------------------------------- among other calls

  /** The balance of a after n commits, for some n not below `from`. */
  ghost predicate WasBalanceSince(entries: seq<Entry>, a: AccountId, from: nat, cents: int) {
    exists n: nat :: from <= n && 2 * n <= |entries| && BalanceAfter(entries, n, a) == cents
  }

  lemma SinceStays(entries: seq<Entry>, more: seq<Entry>, a: AccountId, from: nat, cents: int)
    requires WasBalanceSince(entries, a, from, cents)
    ensures WasBalanceSince(entries + more, a, from, cents)
  {
    var n: nat :| from <= n && 2 * n <= |entries| && BalanceAfter(entries, n, a) == cents;
    assert (entries + more)[..2 * n] == entries[..2 * n];
    assert BalanceAfter(entries + more, n, a) == cents;
  }

  lemma NowIsSince(entries: seq<Entry>, n: nat, a: AccountId, from: nat)
    requires |entries| == 2 * n && from <= n
    ensures WasBalanceSince(entries, a, from, Balance(entries, a))
  {
    assert entries[..2 * n] == entries;
    assert BalanceAfter(entries, n, a) == Balance(entries, a);
  }

  /** The query missed the cache when `from` postings were committed; what it holds or answered is no older. */
  ghost predicate Underway(s: State, p: nat, a: AccountId, from: nat) {
    && p < |s.procs| && s.procs[p].req == BalanceQuery(a)
    && from <= |s.tables.outbox|
    && match s.procs[p].pc
       case CacheMissed => true
       case RowSeen => true
       case BalanceRead(v) => WasBalanceSince(s.tables.entries, a, from, v)
       case Done(BalanceIs(v)) => WasBalanceSince(s.tables.entries, a, from, v)
       case Done(_) => true
       case _ => false
  }

  lemma OwnStep(s: State, a: Action, p: nat, x: AccountId, from: nat)
    requires Underway(s, p, x, from) && !LeavesAlone(a, p) && |s.tables.entries| == 2 * |s.tables.outbox|
    ensures Underway(Step(s, a), p, x, from)
  {
    if s.procs[p].pc.RowSeen? { NowIsSince(s.tables.entries, |s.tables.outbox|, x, from); }
  }

  lemma EntriesGrow(s: State, a: Action)
    requires Typed(s)
    ensures s.tables.entries <= Step(s, a).tables.entries && |s.tables.outbox| <= |Step(s, a).tables.outbox|
  {
    CommitOrQuiet(s, a);
  }

  lemma OthersStep(s: State, a: Action, p: nat, x: AccountId, from: nat)
    requires Typed(s) && Underway(s, p, x, from) && LeavesAlone(a, p)
    ensures Underway(Step(s, a), p, x, from)
  {
    var s', e := Step(s, a), s.tables.entries;
    OtherStep(s, a, p);
    EntriesGrow(s, a);
    var more := s'.tables.entries[|e|..];
    assert s'.tables.entries == e + more;
    match s.procs[p].pc {
      case BalanceRead(v) => SinceStays(e, more, x, from, v);
      case Done(BalanceIs(v)) => SinceStays(e, more, x, from, v);
      case _ =>
    }
  }

  lemma SoundBooks(s: State)
    requires Sound(s)
    ensures Typed(s) && |s.tables.entries| == 2 * |s.tables.outbox|
  {
  }

  lemma {:induction false} UnderwayRun(s: State, actions: seq<Action>, p: nat, x: AccountId, from: nat)
    requires Sound(s) && Underway(s, p, x, from)
    ensures Underway(Exec(s, actions), p, x, from)
  {
    if actions != [] {
      var init, last := actions[..|actions| - 1], actions[|actions| - 1];
      UnderwayRun(s, init, p, x, from);
      SoundRun(s, init);
      SoundBooks(Exec(s, init));
      if LeavesAlone(last, p) { OthersStep(Exec(s, init), last, p, x, from); }
      else { OwnStep(Exec(s, init), last, p, x, from); }
    }
  }

  /**
   * A query that starts in state s and misses the cache: whatever the other calls do, what it
   * answers is the balance after some number of commits that is no less than at its start and no
   * more than there are when it has returned.
   */
  lemma MissAnswersBetween(s: State, p: nat, a: AccountId, redis: Redis, more: seq<Action>)
    requires Sound(s) && p < |s.procs| && s.procs[p] == Proc(BalanceQuery(a), Start) && !(redis.Works? && a in s.cache)
    ensures var end := Exec(Step(s, Run(p, redis)), more);
      && p < |end.procs|
      && (end.procs[p].pc.Done? && end.procs[p].pc.outcome.BalanceIs? ==>
            exists n: nat :: |s.tables.outbox| <= n <= |end.tables.outbox| && 2 * n <= |end.tables.entries|
              && end.procs[p].pc.outcome.cents == Balance(end.tables.entries[..2 * n], a))
  {
    MissIsUnderway(s, p, a, redis);
    SoundStep(s, Run(p, redis));
    AnswersInWindow(Step(s, Run(p, redis)), more, p, a, |s.tables.outbox|);
  }

  lemma MissIsUnderway(s: State, p: nat, a: AccountId, redis: Redis)
    requires p < |s.procs| && s.procs[p] == Proc(BalanceQuery(a), Start) && !(redis.Works? && a in s.cache)
    ensures Underway(Step(s, Run(p, redis)), p, a, |s.tables.outbox|)
  {
  }

  lemma AnswersInWindow(s: State, more: seq<Action>, p: nat, a: AccountId, from: nat)
    requires Sound(s) && Underway(s, p, a, from)
    ensures var end := Exec(s, more);
      && p < |end.procs|
      && (end.procs[p].pc.Done? && end.procs[p].pc.outcome.BalanceIs? ==>
            exists n: nat :: from <= n <= |end.tables.outbox| && 2 * n <= |end.tables.entries|
              && end.procs[p].pc.outcome.cents == Balance(end.tables.entries[..2 * n], a))
  {
    UnderwayRun(s, more, p, a, from);
    SoundRun(s, more);
    SoundBooks(Exec(s, more));
    AnswerInWindow(Exec(s, more), p, a, from);
  }

  lemma AnswerInWindow(end: State, p: nat, a: AccountId, from: nat)
    requires Underway(end, p, a, from) && |end.tables.entries| == 2 * |end.tables.outbox|
    ensures end.procs[p].pc.Done? && end.procs[p].pc.outcome.BalanceIs? ==>
      exists n: nat :: from <= n <= |end.tables.outbox| && 2 * n <= |end.tables.entries|
        && end.procs[p].pc.outcome.cents == Balance(end.tables.entries[..2 * n], a)
  {
    if end.procs[p].pc.Done? && end.procs[p].pc.outcome.BalanceIs? {
      var v := end.procs[p].pc.outcome.cents;
      var n: nat :| from <= n && 2 * n <= |end.tables.entries| && BalanceAfter(end.tables.entries, n, a) == v;
      assert v == Balance(end.tables.entries[..2 * n], a);
    }
  }

  // ---------------------------------------------------------------- where balances come from

  /** In step k some query of x read v, which was the sum of x's entries at that step. */
  ghost predicate ReadAt(s0: State, actions: seq<Action>, k: nat, x: AccountId, v: int) {
    && k < |actions| && actions[k].Run?
    && var (s, q) := (Exec(s0, actions[..k]), actions[k].p);
       && q < |s.procs| && s.procs[q] == Proc(BalanceQuery(x), RowSeen)
       && v == Balance(s.tables.entries, x)
  }

  ghost predicate WasRead(s0: State, actions: seq<Action>, x: AccountId, v: int) {
    exists k: nat :: ReadAt(s0, actions, k, x, v)
  }

  ghost predicate PcWasRead(s0: State, actions: seq<Action>, q: Proc) {
    q.req.BalanceQuery? ==>
      && (q.pc.BalanceRead? ==> WasRead(s0, actions, q.req.account, q.pc.cents))
      && (q.pc.Done? && q.pc.outcome.BalanceIs? ==> WasRead(s0, actions, q.req.account, q.pc.outcome.cents))
  }

  ghost predicate AllWereRead(s0: State, actions: seq<Action>) {
    var s := Exec(s0, actions);
    && (forall x :: x in s.cache ==> WasRead(s0, actions, x, s.cache[x]))
    && (forall p :: 0 <= p < |s.procs| ==> PcWasRead(s0, actions, s.procs[p]))
  }

  lemma WasReadBefore(s0: State, actions: seq<Action>, x: AccountId, v: int)
    requires actions != [] && WasRead(s0, actions[..|actions| - 1], x, v)
    ensures WasRead(s0, actions, x, v)
  {
    var init := actions[..|actions| - 1];
    var k: nat :| ReadAt(s0, init, k, x, v);
    assert init[..k] == actions[..k];
    assert ReadAt(s0, actions, k, x, v);
  }

  lemma WasReadJustNow(s0: State, actions: seq<Action>, x: AccountId)
    requires actions != [] && actions[|actions| - 1].Run?
    requires var (mid, q) := (Exec(s0, actions[..|actions| - 1]), actions[|actions| - 1].p);
      q < |mid.procs| && mid.procs[q] == Proc(BalanceQuery(x), RowSeen)
    ensures WasRead(s0, actions, x, Balance(Exec(s0, actions[..|actions| - 1]).tables.entries, x))
  {
    assert ReadAt(s0, actions, |actions| - 1, x, Balance(Exec(s0, actions[..|actions| - 1]).tables.entries, x));
  }

  /** Where the balances in a state after a step come from: the state before it, or the entries. */
  ghost predicate FromBefore(s: State, a: Action, x: AccountId, v: int) {
    || (x in s.cache && v == s.cache[x])
    || (exists q: nat :: q < |s.procs| && s.procs[q].req == BalanceQuery(x)
          && (s.procs[q].pc == BalanceRead(v) || s.procs[q].pc == Done(BalanceIs(v))))
    || (a.Run? && a.p < |s.procs| && s.procs[a.p] == Proc(BalanceQuery(x), RowSeen)
        && v == Balance(s.tables.entries, x))
  }

  lemma CacheFromBefore(s: State, a: Action, x: AccountId)
    requires Typed(s) && x in Step(s, a).cache
    ensures FromBefore(s, a, x, Step(s, a).cache[x])
  {
    if a.Run? && a.p < |s.procs| {
      DecideTyped(s, s.procs[a.p], a.redis);
      CacheMove(s, s.procs[a.p], a.redis);
      CacheAfterMove(s, a.p, MoveOf(s, a.p, a.redis), x);
    } else {
      QuietCache(s, a);
    }
  }

  lemma CacheAfterMove(s: State, p: nat, m: Move, x: AccountId)
    requires p < |s.procs| && (m.CommitPosting? ==> Posts(s.procs[p].req)) && x in Apply(s, p, m).cache
    ensures || (x in s.cache && Apply(s, p, m).cache[x] == s.cache[x])
            || (m.SetCache? && m.account == x && Apply(s, p, m).cache[x] == m.cents)
  {
  }

  lemma QuietCache(s: State, a: Action)
    requires !a.Run? || a.p >= |s.procs|
    ensures Step(s, a).cache == s.cache
  {
  }

  lemma CacheMove(s: State, q: Proc, redis: Redis)
    requires TypedPc(q)
    ensures var m := Decide(s, q, redis);
      m.SetCache? ==> q.req.BalanceQuery? && q.req.account == m.account && q.pc == BalanceRead(m.cents)
  {
  }

  lemma PcFromBefore(s: State, a: Action, p: nat, v: int)
    requires Typed(s) && p < |s.procs| && s.procs[p].req.BalanceQuery? && p < |Step(s, a).procs|
    requires Step(s, a).procs[p].pc == BalanceRead(v) || Step(s, a).procs[p].pc == Done(BalanceIs(v))
    ensures FromBefore(s, a, s.procs[p].req.account, v)
  {
    if LeavesAlone(a, p) { OtherStep(s, a, p); }
  }

  lemma CameFromReads(s0: State, actions: seq<Action>, x: AccountId, v: int)
    requires actions != [] && AllWereRead(s0, actions[..|actions| - 1])
    requires FromBefore(Exec(s0, actions[..|actions| - 1]), actions[|actions| - 1], x, v)
    ensures WasRead(s0, actions, x, v)
  {
    var mid, a := Exec(s0, actions[..|actions| - 1]), actions[|actions| - 1];
    if a.Run? && a.p < |mid.procs| && mid.procs[a.p] == Proc(BalanceQuery(x), RowSeen)
      && v == Balance(mid.tables.entries, x) {
      WasReadJustNow(s0, actions, x);
    } else {
      if !(x in mid.cache && v == mid.cache[x]) {
        var q: nat :| q < |mid.procs| && mid.procs[q].req == BalanceQuery(x)
                      && (mid.procs[q].pc == BalanceRead(v) || mid.procs[q].pc == Done(BalanceIs(v)));
        assert PcWasRead(s0, actions[..|actions| - 1], mid.procs[q]);
      }
      WasReadBefore(s0, actions, x, v);
    }
  }

  lemma OneMoreWasRead(s0: State, actions: seq<Action>)
    requires actions != [] && AllWereRead(s0, actions[..|actions| - 1]) && Typed(Exec(s0, actions[..|actions| - 1]))
    ensures AllWereRead(s0, actions)
  {
    var mid, a := Exec(s0, actions[..|actions| - 1]), actions[|actions| - 1];
    var s := Exec(s0, actions);
    TypedStep(mid, a);
    forall x | x in s.cache ensures WasRead(s0, actions, x, s.cache[x]) {
      CacheFromBefore(mid, a, x);
      CameFromReads(s0, actions, x, s.cache[x]);
    }
    forall p | 0 <= p < |s.procs| ensures PcWasRead(s0, actions, s.procs[p]) {
      var q := s.procs[p];
      if q.req.BalanceQuery? && (q.pc.BalanceRead? || (q.pc.Done? && q.pc.outcome.BalanceIs?)) {
        var v := if q.pc.BalanceRead? then q.pc.cents else q.pc.outcome.cents;
        PcFromBefore(mid, a, p, v);
        CameFromReads(s0, actions, q.req.account, v);
      }
    }
  }

  lemma {:induction false} AllBalancesWereRead(s0: State, actions: seq<Action>)
    requires Initial(s0)
    ensures AllWereRead(s0, actions)
  {
    if actions != [] {
      var init := actions[..|actions| - 1];
      AllBalancesWereRead(s0, init);
      SoundInitially(s0);
      SoundRun(s0, init);
      OneMoreWasRead(s0, actions);
    }
  }

  /**
   * In every run, whatever get_balance answers, from Redis or not, and whatever Redis holds, was
   * read by some query of that account: at that step of the run it was the sum of its entries. So
   * it was the committed balance after some number of commits.
   */
  lemma BalancesAreHistorical(s0: State, actions: seq<Action>, p: nat)
    requires Initial(s0) && p < |s0.procs| && s0.procs[p].req.BalanceQuery?
    ensures var s := Exec(s0, actions);
      && p < |s.procs|
      && (s.procs[p].pc.Done? && s.procs[p].pc.outcome.BalanceIs? ==>
            && WasRead(s0, actions, s0.procs[p].req.account, s.procs[p].pc.outcome.cents)
            && WasBalance(s.tables.entries, s0.procs[p].req.account, s.procs[p].pc.outcome.cents))
    ensures forall x :: x in Exec(s0, actions).cache ==> WasRead(s0, actions, x, Exec(s0, actions).cache[x])
  {
    SoundInitially(s0);
    SoundRun(s0, actions);
    AllBalancesWereRead(s0, actions);
    var s := Exec(s0, actions);
    assert HonestPc(s, s.procs[p]) && PcWasRead(s0, actions, s.procs[p]);
  }
}
