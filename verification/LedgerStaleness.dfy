/**
 * When the Redis balance cache is wrong for good. A wrong value does no lasting harm while the
 * call that outdated it still has to delete the key; exactly two kinds of step leave one behind
 * with no delete to come, and exactly two kinds repair it.
 */
module LedgerStaleness {
  import opened Prelude
  import opened LedgerTables
  import opened LedgerMachine
  import opened LedgerLocks
  import opened LedgerFunds
  import opened LedgerTheorems

  /** Call p has committed and has yet to delete the cache key of x. */
  predicate Pending(s: State, p: nat, x: AccountId) {
    p < |s.procs| && s.procs[p].pc.Committed? && x in s.procs[p].pc.stale
  }

  ghost predicate Wrong(s: State, x: AccountId) {
    x in s.cache && s.cache[x] != Balance(s.tables.entries, x)
  }

  /** Redis is wrong about x and no call will delete the key. */
  ghost predicate WrongForGood(s: State, x: AccountId) {
    Wrong(s, x) && forall p: nat :: !Pending(s, p, x)
  }

  // ---------------------------------------------------------------- the steps that matter

  /** A get_balance call is about to write what it read of x. */
  predicate Fills(s: State, a: Action, x: AccountId) {
    && a.Run? && a.p < |s.procs| && !a.redis.Fails?
    && s.procs[a.p].pc.BalanceRead? && s.procs[a.p].req.BalanceQuery? && s.procs[a.p].req.account == x
  }

  /** It writes a value that commits have overtaken, and nobody will delete it. */
  ghost predicate FillsOvertaken(s: State, a: Action, x: AccountId) {
    && Fills(s, a, x) && s.procs[a.p].pc.cents != Balance(s.tables.entries, x)
    && forall q: nat :: !Pending(s, q, x)
  }

  /**
   * A call drops a delete it still owes: it crashes, the delete fails, or an earlier one raised
   * and this one is skipped.
   */
  predicate DropsDelete(s: State, a: Action, x: AccountId) {
    && (a.Run? || a.Crash?) && Pending(s, a.p, x)
    && (a.Crash? || a.redis.Fails? || (a.redis.WorksButRaises? && s.procs[a.p].pc.stale[0] != x))
  }

  /** And it was the last one owed, with a wrong value in the cache. */
  ghost predicate AbandonsDelete(s: State, a: Action, x: AccountId) {
    DropsDelete(s, a, x) && Wrong(s, x) && forall q: nat :: q != a.p ==> !Pending(s, q, x)
  }

  /** A commit that will delete the key of x, or a get_balance call that writes the current balance. */
  ghost predicate Repairs(s: State, a: Action, x: AccountId) {
    || (Fills(s, a, x) && s.procs[a.p].pc.cents == Balance(s.tables.entries, x))
    || (a.Run? && a.p < |s.procs| && s.procs[a.p].pc.Inserted? && Posts(s.procs[a.p].req)
      && x in TouchedByCommit(s.procs[a.p].req))
  }

  // ---------------------------------------------------------------- what the other steps leave as it is

  /** The step neither writes the cache nor commits, and owes the same deletes after it. */
  ghost predicate Neutral(s: State, s': State) {
    && s'.tables == s.tables && s'.cache == s.cache && |s'.procs| == |s.procs|
    && forall p, x :: 0 <= p < |s.procs| ==> (Pending(s', p, x) <==> Pending(s, p, x))
  }

  /** A call whose step can concern the cache: it fills it, it commits, or it owes deletes. */
  predicate Concerned(pc: Pc) { pc.BalanceRead? || pc.Inserted? || pc.Committed? }

  lemma NeutralMove(s: State, p: nat, m: Move)
    requires p < |s.procs| && !Concerned(s.procs[p].pc) && TypedMove(s.procs[p], m)
    requires !m.SetCache? && !m.DropCache? && !m.CommitPosting? && (m.Wait? || !m.pc.Committed?)
    ensures Neutral(s, Apply(s, p, m))
  {
  }

  lemma UnconcernedDecide(s: State, q: Proc, redis: Redis)
    requires TypedPc(q) && !Concerned(q.pc)
    ensures var m := Decide(s, q, redis);
      !m.SetCache? && !m.DropCache? && !m.CommitPosting? && (m.Wait? || !m.pc.Committed?)
  {
  }

  lemma NeutralStep(s: State, a: Action)
    requires Typed(s) && ((a.Run? || a.Crash?) && a.p < |s.procs| ==> !Concerned(s.procs[a.p].pc))
    ensures Neutral(s, Step(s, a))
  {
    if a.Run? && a.p < |s.procs| {
      DecideTyped(s, s.procs[a.p], a.redis);
      UnconcernedDecide(s, s.procs[a.p], a.redis);
      NeutralMove(s, a.p, MoveOf(s, a.p, a.redis));
    } else if a.Crash? && a.p < |s.procs| && !s.procs[a.p].pc.Done? {
      NeutralMove(s, a.p, Rollback(Done(Crashed)));
    }
  }

  /** The other calls owe what they owed. */
  ghost predicate OthersOwe(s: State, s': State, p: nat) {
    && |s'.procs| == |s.procs|
    && forall q: nat, x :: q != p ==> (Pending(s', q, x) <==> Pending(s, q, x))
  }

  lemma QueryStep(s: State, p: nat, redis: Redis)
    requires Typed(s) && p < |s.procs| && s.procs[p].pc.BalanceRead?
    ensures var s', x := Step(s, Run(p, redis)), s.procs[p].req.account;
      && s'.tables == s.tables && OthersOwe(s, s', p) && (forall y :: !Pending(s', p, y) && !Pending(s, p, y))
      && s'.cache == if redis.Fails? then s.cache else s.cache[x := s.procs[p].pc.cents]
  {
  }

  lemma InvalidateDrops(txn: nat, stale: seq<AccountId>, redis: Redis)
    ensures var m := Invalidate(txn, stale, redis);
      if stale == [] || redis.Fails? then m == Goto(Done(Posted(txn)))
      else if redis.Works? then m == DropCache(stale[0], Committed(txn, stale[1..]))
      else m == DropCache(stale[0], Done(Posted(txn)))
  {
  }

  lemma DeleteStep(s: State, p: nat, redis: Redis)
    requires p < |s.procs| && s.procs[p].pc.Committed?
    ensures var s', stale := Step(s, Run(p, redis)), s.procs[p].pc.stale;
      && s'.tables == s.tables && OthersOwe(s, s', p)
      && s'.cache == (if stale == [] || redis.Fails? then s.cache else s.cache - {stale[0]})
      && forall y :: Pending(s', p, y) <==> stale != [] && redis.Works? && y in stale[1..]
  {
    InvalidateDrops(s.procs[p].pc.txn, s.procs[p].pc.stale, redis);
  }

  /**
   * The deletes of a committed transfer, source first. The first one works and leaves the second
   * owed; or it fails, and neither key is deleted; or it deletes the source's key and raises, and
   * the destination's is skipped. Once only the second is owed it is deleted, or not, and that is all.
   */
  lemma TransferDeletes(s: State, p: nat, commit: Redis, first: Redis, second: Redis)
    requires Typed(s) && p < |s.procs| && s.procs[p].pc.Inserted? && s.procs[p].req.Transfer?
    requires s.procs[p].req.source != s.procs[p].req.destination
    ensures var (a, b) := (s.procs[p].req.source, s.procs[p].req.destination);
      var s1 := Step(s, Run(p, commit));
      var s2 := Step(s1, Run(p, first));
      var s3 := Step(s2, Run(p, second));
      && s1.cache == s.cache && Pending(s1, p, a) && Pending(s1, p, b)
      && s2.cache == (if first.Fails? then s.cache else s.cache - {a})
      && !Pending(s2, p, a) && (Pending(s2, p, b) <==> first.Works?)
      && s3.cache == (if first.Works? && !second.Fails? then s.cache - {a, b} else s2.cache)
      && !Pending(s3, p, b)
  {
    var s1 := Step(s, Run(p, commit));
    CommitOwesBoth(s, p, commit);
    DeleteStep(s1, p, first);
    if first.Works? {
      var s2 := Step(s1, Run(p, first));
      AfterFirstDelete(s1, p);
      DeleteStep(s2, p, second);
    } else {
      RaisingEndsIt(s1, p, first);
      OverIsOver(Step(s1, Run(p, first)), p, second);
    }
  }

  /** What a commit owes to Redis: the keys of the accounts the request names, and no others. */
  lemma CommitOwes(s: State, p: nat, redis: Redis, x: AccountId)
    requires Typed(s) && p < |s.procs| && s.procs[p].pc.Inserted?
    ensures Pending(Step(s, Run(p, redis)), p, x) <==>
      match s.procs[p].req
      case Transfer(a, b, _, _) => x == a || x == b
      case Deposit(a, _) => x == a
      case Withdrawal(a, _) => x == a
      case BalanceQuery(_) => false
  {
  }

  lemma CommitOwesBoth(s: State, p: nat, redis: Redis)
    requires Typed(s) && p < |s.procs| && s.procs[p].pc.Inserted? && s.procs[p].req.Transfer?
    ensures var s', req := Step(s, Run(p, redis)), s.procs[p].req;
      s'.cache == s.cache && p < |s'.procs|
      && s'.procs[p].pc.Committed? && s'.procs[p].pc.stale == [req.source, req.destination]
  {
  }

  lemma AfterFirstDelete(s: State, p: nat)
    requires p < |s.procs| && s.procs[p].pc.Committed? && s.procs[p].pc.stale != []
    ensures var s' := Step(s, Run(p, Works));
      p < |s'.procs| && s'.procs[p].pc == Committed(s.procs[p].pc.txn, s.procs[p].pc.stale[1..])
  {
    InvalidateDrops(s.procs[p].pc.txn, s.procs[p].pc.stale, Works);
  }

  lemma RaisingEndsIt(s: State, p: nat, redis: Redis)
    requires p < |s.procs| && s.procs[p].pc.Committed? && s.procs[p].pc.stale != [] && !redis.Works?
    ensures var s' := Step(s, Run(p, redis)); p < |s'.procs| && s'.procs[p].pc.Done?
  {
    InvalidateDrops(s.procs[p].pc.txn, s.procs[p].pc.stale, redis);
  }

  lemma OverIsOver(s: State, p: nat, redis: Redis)
    requires p < |s.procs| && s.procs[p].pc.Done?
    ensures Step(s, Run(p, redis)) == s
  {
  }

  lemma CrashStep(s: State, p: nat)
    requires Typed(s) && p < |s.procs|
    ensures var s' := Step(s, Crash(p));
      && s'.tables == s.tables && s'.cache == s.cache && OthersOwe(s, s', p) && forall y :: !Pending(s', p, y)
  {
  }

  lemma CommitStep(s: State, p: nat, redis: Redis, x: AccountId)
    requires Typed(s) && TimeInv(s) && p < |s.procs| && s.procs[p].pc.Inserted? && x != s.c.system
    ensures var s', req := Step(s, Run(p, redis)), s.procs[p].req;
      && s'.cache == s.cache && OthersOwe(s, s', p) && Posts(req) && !Pending(s, p, x)
      && (Pending(s', p, x) <==> x in TouchedByCommit(req))
      && (x !in TouchedByCommit(req) ==> Balance(s'.tables.entries, x) == Balance(s.tables.entries, x))
  {
    PostMovesMoney(s.c, s.tables, s.procs[p].req, CurrencyOf(s.accounts, s.procs[p].req), s.procs[p].pc.at, p, x, 0);
  }

  // ---------------------------------------- exactly when it goes wrong, and when it is repaired

  ghost predicate GoesWrong(s: State, a: Action, x: AccountId) {
    FillsOvertaken(s, a, x) || AbandonsDelete(s, a, x)
  }

  /** The two sides of a step, for a state that is not wrong for good and for one that is. */
  ghost predicate ExactStep(s: State, a: Action, x: AccountId) {
    if WrongForGood(s, x) then !WrongForGood(Step(s, a), x) <==> Repairs(s, a, x)
    else WrongForGood(Step(s, a), x) <==> GoesWrong(s, a, x)
  }

  lemma QueryIsExact(s: State, a: Action, x: AccountId)
    requires Typed(s) && a.Run? && a.p < |s.procs| && s.procs[a.p].pc.BalanceRead?
    ensures ExactStep(s, a, x)
  {
    QueryStep(s, a.p, a.redis);
  }

  lemma CommitIsExact(s: State, a: Action, x: AccountId)
    requires Typed(s) && TimeInv(s) && a.Run? && a.p < |s.procs| && s.procs[a.p].pc.Inserted? && x != s.c.system
    ensures ExactStep(s, a, x)
  {
    CommitStep(s, a.p, a.redis, x);
  }

  lemma DeleteIsExact(s: State, a: Action, x: AccountId)
    requires Typed(s) && a.Run? && a.p < |s.procs| && s.procs[a.p].pc.Committed?
    ensures ExactStep(s, a, x)
  {
    DeleteStep(s, a.p, a.redis);
    var stale := s.procs[a.p].pc.stale;
    assert x in stale <==> stale != [] && (stale[0] == x || x in stale[1..]);
    assert x in stale <==> Pending(s, a.p, x);
  }

  lemma CrashIsExact(s: State, a: Action, x: AccountId)
    requires Typed(s) && a.Crash? && a.p < |s.procs|
    ensures ExactStep(s, a, x)
  {
    CrashStep(s, a.p);
  }

  lemma NeutralIsExact(s: State, a: Action, x: AccountId)
    requires Neutral(s, Step(s, a)) && ((a.Run? || a.Crash?) && a.p < |s.procs| ==> !Concerned(s.procs[a.p].pc))
    ensures ExactStep(s, a, x)
  {
  }

  /**
   * A step leaves Redis wrong about a customer for good exactly when it writes an overtaken
   * balance with no delete owed, or drops the last delete owed of a wrong one; and it ends that
   * exactly when it writes the current balance or commits a posting that names the customer.
   */
  lemma StalenessIsExact(s: State, a: Action, x: AccountId)
    requires Typed(s) && TimeInv(s) && x != s.c.system
    ensures WrongForGood(s, x) ==> (!WrongForGood(Step(s, a), x) <==> Repairs(s, a, x))
    ensures !WrongForGood(s, x) ==> (WrongForGood(Step(s, a), x) <==> GoesWrong(s, a, x))
  {
    if (a.Run? || a.Crash?) && a.p < |s.procs| && Concerned(s.procs[a.p].pc) {
      if a.Crash? { CrashIsExact(s, a, x); }
      else if s.procs[a.p].pc.BalanceRead? { QueryIsExact(s, a, x); }
      else if s.procs[a.p].pc.Inserted? { CommitIsExact(s, a, x); }
      else { DeleteIsExact(s, a, x); }
    } else {
      NeutralStep(s, a);
      NeutralIsExact(s, a, x);
    }
  }

  // ---------------------------------------------------------------- runs

  ghost predicate NeverGoesWrong(s: State, actions: seq<Action>, x: AccountId) {
    forall k :: 0 <= k < |actions| ==> !GoesWrong(Exec(s, actions[..k]), actions[k], x)
  }

  ghost predicate NeverRepaired(s: State, actions: seq<Action>, x: AccountId) {
    forall k :: 0 <= k < |actions| ==> !Repairs(Exec(s, actions[..k]), actions[k], x)
  }

  lemma {:induction false} NotWrongForGood(s: State, actions: seq<Action>, x: AccountId)
    requires Sound(s) && x != s.c.system && !WrongForGood(s, x) && NeverGoesWrong(s, actions, x)
    ensures Sound(Exec(s, actions)) && Exec(s, actions).c == s.c && !WrongForGood(Exec(s, actions), x)
  {
    if actions != [] {
      var init, last := actions[..|actions| - 1], actions[|actions| - 1];
      assert NeverGoesWrong(s, init, x) by { assert forall k :: 0 <= k < |init| ==> init[..k] == actions[..k]; }
      NotWrongForGood(s, init, x);
      SoundStep(Exec(s, init), last);
      StalenessIsExact(Exec(s, init), last, x);
    }
  }

  lemma {:induction false} StaysWrong(s: State, actions: seq<Action>, x: AccountId)
    requires Sound(s) && x != s.c.system && WrongForGood(s, x) && NeverRepaired(s, actions, x)
    ensures Sound(Exec(s, actions)) && Exec(s, actions).c == s.c && WrongForGood(Exec(s, actions), x)
  {
    if actions != [] {
      var init, last := actions[..|actions| - 1], actions[|actions| - 1];
      assert NeverRepaired(s, init, x) by { assert forall k :: 0 <= k < |init| ==> init[..k] == actions[..k]; }
      StaysWrong(s, init, x);
      SoundStep(Exec(s, init), last);
      StalenessIsExact(Exec(s, init), last, x);
    }
  }

  /** In a run without such a step, whenever no delete is owed, Redis is right about x or does not know it. */
  lemma CacheIsExactAtRest(s0: State, actions: seq<Action>, x: AccountId)
    requires Initial(s0) && x != s0.c.system && NeverGoesWrong(s0, actions, x)
    ensures var s := Exec(s0, actions);
      (forall p: nat :: !Pending(s, p, x)) && x in s.cache ==> s.cache[x] == Balance(s.tables.entries, x)
    ensures var s := Exec(s0, actions);
      AllFinished(s) && x in s.cache ==> s.cache[x] == Balance(s.tables.entries, x)
  {
    SoundInitially(s0);
    NotWrongForGood(s0, actions, x);
  }
}
