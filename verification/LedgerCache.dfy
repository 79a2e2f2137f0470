/**
 * The Redis balance cache under interleaving: a cached or returned balance may be old, but it
 * was the committed balance of that account after some number of commits.
 */
module LedgerCache {
  import opened Prelude
  import opened LedgerTables
  import opened LedgerMachine

  /** The balance of x when n postings had been committed; each adds two entries at once. */
  function BalanceAfter(entries: seq<Entry>, n: nat, x: AccountId): int
    requires 2 * n <= |entries|
  {
    Balance(entries[..2 * n], x)
  }

  ghost predicate WasBalance(entries: seq<Entry>, x: AccountId, cents: int) {
    exists n: nat :: 2 * n <= |entries| && BalanceAfter(entries, n, x) == cents
  }

  /** What a balance query has read or answered was true at some moment up to now. */
  ghost predicate HonestPc(s: State, q: Proc) {
    q.req.BalanceQuery? ==>
      && (q.pc.BalanceRead? ==> WasBalance(s.tables.entries, q.req.account, q.pc.cents))
      && (q.pc.Done? && q.pc.outcome.BalanceIs? ==> WasBalance(s.tables.entries, q.req.account, q.pc.outcome.cents))
  }

  ghost predicate HonestCache(s: State) {
    forall x :: x in s.cache ==> WasBalance(s.tables.entries, x, s.cache[x])
  }

  ghost predicate CacheInv(s: State) {
    HonestCache(s) && forall p :: 0 <= p < |s.procs| ==> HonestPc(s, s.procs[p])
  }

  lemma PastStaysPast(entries: seq<Entry>, more: seq<Entry>, x: AccountId, cents: int)
    requires WasBalance(entries, x, cents)
    ensures WasBalance(entries + more, x, cents)
  {
    var n: nat :| 2 * n <= |entries| && BalanceAfter(entries, n, x) == cents;
    assert (entries + more)[..2 * n] == entries[..2 * n];
    assert BalanceAfter(entries + more, n, x) == cents;
  }

  lemma NowIsAMoment(entries: seq<Entry>, n: nat, x: AccountId)
    requires |entries| == 2 * n
    ensures WasBalance(entries, x, Balance(entries, x))
  {
    assert entries[..2 * n] == entries;
    assert BalanceAfter(entries, n, x) == Balance(entries, x);
  }

  lemma DecideIsHonest(s: State, q: Proc, redis: Redis)
    requires TypedPc(q) && HonestCache(s) && HonestPc(s, q) && |s.tables.entries| == 2 * |s.tables.outbox|
    ensures var m := Decide(s, q, redis);
      && (!m.Wait? && !m.CommitPosting? ==> HonestPc(s, q.(pc := m.pc)))
      && (m.SetCache? ==> WasBalance(s.tables.entries, m.account, m.cents))
  {
    if q.pc.RowSeen? {
      NowIsAMoment(s.tables.entries, |s.tables.outbox|, q.req.account);
    }
  }

  lemma QuietMoveKeepsCache(s: State, p: nat, m: Move)
    requires CacheInv(s) && p < |s.procs| && !m.CommitPosting?
    requires !m.Wait? ==> HonestPc(s, s.procs[p].(pc := m.pc))
    requires m.SetCache? ==> WasBalance(s.tables.entries, m.account, m.cents)
    ensures CacheInv(Apply(s, p, m))
  {
    var s' := Apply(s, p, m);
    forall i | 0 <= i < |s'.procs| ensures HonestPc(s', s'.procs[i]) {
      if i != p { assert s'.procs[i] == s.procs[i] && HonestPc(s, s.procs[i]); }
      else { assert HonestPc(s, s.procs[p]); }
    }
  }

  lemma CommitKeepsCache(s: State, p: nat, m: Move)
    requires CacheInv(s) && p < |s.procs| && m.CommitPosting? && Posts(s.procs[p].req)
    ensures CacheInv(Apply(s, p, m))
  {
    var s' := Apply(s, p, m);
    var more := s'.tables.entries[|s.tables.entries|..];
    assert s'.tables.entries == s.tables.entries + more;
    forall x | x in s'.cache ensures WasBalance(s'.tables.entries, x, s'.cache[x]) {
      PastStaysPast(s.tables.entries, more, x, s.cache[x]);
    }
    forall i | 0 <= i < |s'.procs| ensures HonestPc(s', s'.procs[i]) {
      if i != p {
        var q := s.procs[i];
        assert s'.procs[i] == q && HonestPc(s, q);
        if q.req.BalanceQuery? && q.pc.BalanceRead? {
          PastStaysPast(s.tables.entries, more, q.req.account, q.pc.cents);
        } else if q.req.BalanceQuery? && q.pc.Done? && q.pc.outcome.BalanceIs? {
          PastStaysPast(s.tables.entries, more, q.req.account, q.pc.outcome.cents);
        }
      }
    }
  }

  /** A query that reads gets the balance of that moment, and what enters Redis is what some query had read. */
  ghost predicate ReadsAndWritesTrue(s: State, s': State, p: nat)
    requires p < |s.procs|
  {
    && p < |s'.procs|
    && (s.procs[p].pc.RowSeen? && s'.procs[p].pc.BalanceRead? && s.procs[p].req.BalanceQuery? ==>
          s'.procs[p].pc.cents == Balance(s.tables.entries, s.procs[p].req.account))
    && ((s.procs[p].pc.BalanceRead? && s.procs[p].req.BalanceQuery?
         && s'.cache != s.cache && s'.procs[p] != s.procs[p]) ==>
          s'.cache == s.cache[s.procs[p].req.account := s.procs[p].pc.cents])
  }

  lemma OneReadsAndWritesTrue(s: State, a: Action, p: nat)
    requires Typed(s) && p < |s.procs|
    ensures ReadsAndWritesTrue(s, Step(s, a), p)
  {
    TypedStep(s, a);
    if LeavesAlone(a, p) { OtherStep(s, a, p); }
  }

  lemma CacheInvStep(s: State, a: Action)
    requires Typed(s) && CacheInv(s) && |s.tables.entries| == 2 * |s.tables.outbox|
    ensures CacheInv(Step(s, a))
    ensures forall p :: 0 <= p < |s.procs| ==> ReadsAndWritesTrue(s, Step(s, a), p)
  {
    var s' := Step(s, a);
    forall p | 0 <= p < |s.procs| ensures ReadsAndWritesTrue(s, s', p) { OneReadsAndWritesTrue(s, a, p); }
    StepCases(s, a);
    if s'.tables == s.tables && s'.cache == s.cache && s'.procs == s.procs {
      assert forall p :: 0 <= p < |s.procs| ==> HonestPc(s, s.procs[p]);
    } else {
      var m :| TypedMove(s.procs[a.p], m) && MayMove(s, a.p, m) && s' == Apply(s, a.p, m);
      if m.CommitPosting? {
        CommitKeepsCache(s, a.p, m);
      } else {
        if redis :| m == MoveOf(s, a.p, redis) {
          DecideIsHonest(s, s.procs[a.p], redis);
        }
        QuietMoveKeepsCache(s, a.p, m);
      }
    }
  }
}
