/**
 * The ledger's guarantees on every run: any number of concurrent deposits, withdrawals,
 * transfers and balance queries, interleaved in any order, with crashes, Redis failures and
 * account status changes anywhere.
 */
module LedgerTheorems {
  import opened Prelude
  import opened RequestHash
  import opened LedgerTables
  import opened LedgerMachine
  import opened LedgerLocks
  import opened LedgerFunds
  import opened LedgerBooks
  import opened LedgerReplay
  import opened LedgerCache

  ghost predicate Sound(s: State) {
    Typed(s) && LockInv(s) && FundsInv(s) && BooksInv(s) && ReplayInv(s) && CacheInv(s)
  }

  lemma SoundInitially(s: State)
    requires Initial(s)
    ensures Sound(s)
  {
  }

  lemma SoundStep(s: State, a: Action)
    requires Sound(s)
    ensures Sound(Step(s, a)) && SameCalls(s, Step(s, a))
  {
    TypedStep(s, a);
    LockInvStep(s, a);
    FundsInvStep(s, a);
    BooksInvStep(s, a);
    ReplayInvStep(s, a);
    CacheInvStep(s, a);
  }

  lemma {:induction false} SoundRun(s: State, actions: seq<Action>)
    requires Sound(s)
    ensures Sound(Exec(s, actions)) && SameCalls(s, Exec(s, actions))
  {
    if actions != [] {
      SoundRun(s, actions[..|actions| - 1]);
      SoundStep(Exec(s, actions[..|actions| - 1]), actions[|actions| - 1]);
    }
  }

  /** No customer account is overdrawn: not now, and not at any past or future instant one asks about. */
  lemma NoOverspending(s0: State, actions: seq<Action>, x: AccountId, t: int)
    requires Initial(s0) && x != s0.c.system
    ensures var db := Exec(s0, actions).tables;
      Balance(db.entries, x) >= 0 && BalanceAt(db.txns, db.entries, x, t) >= 0
  {
    SoundInitially(s0);
    SoundRun(s0, actions);
    var s := Exec(s0, actions);
    CurrentBalanceIsNonNegative(s, x);
    assert BalanceThen(s, x, t) >= 0;
  }

  /** A point-in-time balance is final once no call holds an earlier stamp: no later schedule changes it. */
  lemma {:induction false} SettledPastIsFinal(s: State, actions: seq<Action>, x: AccountId, t: int)
    requires Sound(s) && Settled(s, t)
    ensures Settled(Exec(s, actions), t) && BalanceThen(Exec(s, actions), x, t) == BalanceThen(s, x, t)
  {
    if actions != [] {
      var init := actions[..|actions| - 1];
      SettledPastIsFinal(s, init, x, t);
      SoundRun(s, init);
      SettledStep(Exec(s, init), actions[|actions| - 1], x, t);
    }
  }

  /**
   * In every run each transaction is two cancelling entries and one outbox row; no row stands
   * alone; money is conserved.
   */
  lemma BooksAlwaysBalance(s0: State, actions: seq<Action>)
    requires Initial(s0)
    ensures Balanced(Exec(s0, actions).c, Exec(s0, actions).tables)
  {
    SoundInitially(s0);
    SoundRun(s0, actions);
    BooksAreBalanced(Exec(s0, actions));
  }

  /**
   * A transfer that answers, in any run, answers with the one transaction of its key, which moved
   * exactly its money.
   */
  lemma TransfersAreIdempotent(s0: State, actions: seq<Action>, p: nat)
    requires Initial(s0) && CollisionFree(s0.c.digest) && p < |s0.procs| && s0.procs[p].req.Transfer?
    ensures AnswersForItself(Exec(s0, actions), p) && Exec(s0, actions).procs[p].req == s0.procs[p].req
  {
    SoundInitially(s0);
    SoundRun(s0, actions);
    TransferAnswersForItself(Exec(s0, actions), p);
  }

  /** Call p is a retry: its key was committed, as transaction id, before it started. */
  ghost predicate Retries(s: State, p: nat, id: nat, answer: Outcome) {
    && p < |s.procs| && s.procs[p].req.Transfer?
    && id in s.tables.txns && s.tables.txns[id].key == Some(s.procs[p].req.key)
    && answer == RetryAnswer(s.c, s.tables.txns, id, s.procs[p].req)
    && (s.procs[p].pc == Start || s.procs[p].pc == Done(Crashed) || s.procs[p].pc == Done(answer))
  }

  lemma OwnRetryStep(s: State, a: Action, p: nat, id: nat, answer: Outcome)
    requires KeysUnique(s.tables.txns) && Retries(s, p, id, answer) && !LeavesAlone(a, p)
    ensures var s' := Step(s, a);
      && s'.tables == s.tables && s'.cache == s.cache && s'.c == s.c && |s'.procs| == |s.procs|
      && s'.procs[p].req == s.procs[p].req
      && (s'.procs[p].pc == s.procs[p].pc || s'.procs[p].pc == Done(Crashed) || s'.procs[p].pc == Done(answer))
  {
    if a.Run? && s.procs[p].pc == Start {
      RetryChangesNothing(s, p, a.redis, id);
    }
  }

  lemma RetryStep(s: State, a: Action, p: nat, id: nat, answer: Outcome)
    requires Typed(s) && KeysUnique(s.tables.txns) && s.tables.nextId !in s.tables.txns && Retries(s, p, id, answer)
    ensures Retries(Step(s, a), p, id, answer)
    ensures !LeavesAlone(a, p) ==> Step(s, a).tables == s.tables && Step(s, a).cache == s.cache
  {
    if LeavesAlone(a, p) {
      TypedStep(s, a);
      TxnsAreKept(s, a, id);
      OtherStep(s, a, p);
    } else {
      OwnRetryStep(s, a, p, id, answer);
    }
  }

  lemma SoundFacts(s: State)
    requires Sound(s)
    ensures Typed(s) && KeysUnique(s.tables.txns) && s.tables.nextId !in s.tables.txns
  {
  }

  /**
   * However a retry is interleaved with other calls, it answers with the committed transaction, or
   * that the key belongs to a different request, whatever becomes of balances and accounts.
   */
  lemma {:induction false} RetriesAreReplayed(s: State, actions: seq<Action>, p: nat, id: nat, answer: Outcome)
    requires Sound(s) && Retries(s, p, id, answer)
    ensures Retries(Exec(s, actions), p, id, answer)
  {
    if actions != [] {
      var init, last := actions[..|actions| - 1], actions[|actions| - 1];
      RetriesAreReplayed(s, init, p, id, answer);
      SoundRun(s, init);
      SoundFacts(Exec(s, init));
      RetryStep(Exec(s, init), last, p, id, answer);
    }
  }

  /**
   * Idempotency in the caller's terms: once call q has posted the transaction of a key, any call
   * with the key that starts later ends, short of a crash, with that transaction exactly when it
   * asks for the same source, destination and printed amount, and else is told that the key
   * belongs to a different request.
   */
  lemma RetriesAreJudgedByRequest(s0: State, actions: seq<Action>, more: seq<Action>, p: nat, q: nat, id: nat)
    requires Initial(s0) && CollisionFree(s0.c.digest)
    requires var s := Exec(s0, actions);
      && p < |s.procs| && q < |s.procs| && s.procs[p].req.Transfer? && s.procs[q].req.Transfer?
      && s.procs[p].req.key == s.procs[q].req.key
      && s.procs[p].pc == Start && id in s.tables.txns && s.tables.txns[id].postedBy == q
    ensures var s, end := Exec(s0, actions), Exec(Exec(s0, actions), more);
      && p < |end.procs|
      && (end.procs[p].pc.Done? && end.procs[p].pc.outcome != Crashed ==>
            end.procs[p].pc.outcome ==
              if SameMovement(s.procs[q].req, s.procs[p].req) then Replayed(id)
              else Failed(KeyUsedForDifferentRequest))
  {
    SoundInitially(s0);
    SoundRun(s0, actions);
    RetryByRequest(Exec(s0, actions), more, p, id);
  }

  lemma RetryByRequest(s: State, more: seq<Action>, p: nat, id: nat)
    requires Sound(s) && CollisionFree(s.c.digest)
    requires p < |s.procs| && s.procs[p].req.Transfer? && s.procs[p].pc == Start
    requires id in s.tables.txns && s.tables.txns[id].postedBy < |s.procs|
    requires var poster := s.procs[s.tables.txns[id].postedBy].req; poster.Transfer? && poster.key == s.procs[p].req.key
    ensures Retries(Exec(s, more), p, id,
      if SameMovement(s.procs[s.tables.txns[id].postedBy].req, s.procs[p].req) then Replayed(id)
      else Failed(KeyUsedForDifferentRequest))
  {
    assert Recorded(s, id);
    FingerprintTells(s, id, s.procs[p].req);
    RetriesAreReplayed(s, more, p, id, RetryAnswer(s.c, s.tables.txns, id, s.procs[p].req));
  }

  /** Concurrent calls never deadlock, never run forever, and can always be finished. */
  lemma CallsTerminate(s0: State, actions: seq<Action>) returns (rest: seq<Action>)
    requires Initial(s0)
    ensures StepsTaken(s0, actions) <= WorkLeft(s0)
    ensures forall chain: seq<nat> :: |chain| >= 2 && WaitChain(Exec(s0, actions), chain) ==>
      chain[0] != chain[|chain| - 1]
    ensures Undisrupted(rest) && AllFinished(Exec(s0, actions + rest))
  {
    SoundInitially(s0);
    SoundRun(s0, actions);
    RunsAreBounded(s0, actions);
    var s := Exec(s0, actions);
    forall chain: seq<nat> | |chain| >= 2 && WaitChain(s, chain) ensures chain[0] != chain[|chain| - 1] {
      NoDeadlock(s, chain);
    }
    rest := EveryoneFinishes(s);
    ExecConcat(s0, actions, rest);
  }
}
