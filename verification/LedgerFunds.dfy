/**
 * No overspending, at any instant: under every interleaving the point-in-time balance of every
 * account other than SYSTEM_CASH is non-negative, although deposits take no lock and
 * created_at is stamped when a row is flushed, not when it is committed.
 */
module LedgerFunds {
  import opened Prelude
  import opened Money
  import opened LedgerTables
  import opened LedgerMachine
  import opened LedgerLocks

  /** A debit that has passed its balance check and not committed yet. */
  predicate Debiting(q: Proc) {
    (q.req.Withdrawal? || q.req.Transfer?) && (q.pc.Funded? || q.pc.Cleared? || q.pc.Stamped? || q.pc.Inserted?)
  }

  predicate Timely(pc: Pc, clock: int) {
    match pc
    case Funded(asOf) => asOf <= clock
    case Cleared(asOf) => asOf <= clock
    case Stamped(at, asOf) => asOf <= at <= clock
    case Inserted(at, asOf) => asOf <= at <= clock
    case _ => true
  }

  ghost predicate TimeInv(s: State) {
    && Joined(s.tables.txns, s.tables.entries)
    && (forall id :: id in s.tables.txns ==> id < s.tables.nextId && s.tables.txns[id].createdAt <= s.clock)
    && (forall p :: 0 <= p < |s.procs| ==> Timely(s.procs[p].pc, s.clock))
  }

  ghost function BalanceThen(s: State, x: AccountId, t: int): int {
    BalanceAt(s.tables.txns, s.tables.entries, x, t)
  }

  /** get_balance_at never reports a debt of a customer account, whatever the instant asked for. */
  ghost predicate NeverNegative(s: State) {
    forall x: AccountId, t :: x != s.c.system ==> BalanceThen(s, x, t) >= 0
  }

  /** From the instant its balance was read, the source can pay for the pending debit. */
  ghost predicate Covers(s: State, q: Proc) {
    Debiting(q) && Debited(q.req) != s.c.system ==>
      forall t :: q.pc.asOf <= t ==> BalanceThen(s, Debited(q.req), t) + RoundCents(-Value(s.c, q.req)) >= 0
  }

  ghost predicate Covered(s: State) {
    forall p :: 0 <= p < |s.procs| ==> Covers(s, s.procs[p])
  }

  ghost predicate FundsInv(s: State) { TimeInv(s) && NeverNegative(s) && Covered(s) }

  // ---------------------------------------------------------------- moves that write no table

  ghost predicate FundMove(s: State, q: Proc, m: Move) {
    !m.Wait? && !m.CommitPosting? ==>
      var q' := q.(pc := m.pc);
      && Timely(m.pc, s.clock)
      && (m.pc.Stamped? ==> m.pc.at == s.clock)
      && (m.pc.Inserted? ==> q.pc.Stamped? && m.pc.at == q.pc.at)
      && (Debiting(q') ==>
            || (Debiting(q) && q'.pc.asOf == q.pc.asOf)
            || (q'.pc.asOf == s.clock && Value(s.c, q.req) <= Balance(s.tables.entries, Debited(q.req)) as real))
  }

  lemma DecideIsFundMove(s: State, q: Proc, redis: Redis)
    requires TypedPc(q) && Timely(q.pc, s.clock)
    ensures FundMove(s, q, Decide(s, q, redis))
  {
  }

  lemma MovesAreFundMoves(s: State, p: nat, m: Move)
    requires p < |s.procs| && TypedPc(s.procs[p]) && Timely(s.procs[p].pc, s.clock) && MayMove(s, p, m)
    ensures FundMove(s, s.procs[p], m)
  {
    if redis :| m == MoveOf(s, p, redis) {
      DecideIsFundMove(s, s.procs[p], redis);
    }
  }

  /** A balance read under the lock covers the debit from that instant on: nothing committed is stamped later. */
  lemma ReadCovers(s: State, q: Proc)
    requires TimeInv(s) && Debiting(q) && q.pc.asOf == s.clock
    requires Value(s.c, q.req) <= Balance(s.tables.entries, Debited(q.req)) as real
    ensures Covers(s, q)
  {
    CheckedDebitIsCovered(Balance(s.tables.entries, Debited(q.req)), Value(s.c, q.req));
    forall t | s.clock <= t ensures BalanceThen(s, Debited(q.req), t) == Balance(s.tables.entries, Debited(q.req)) {
      BalanceAtNow(s.tables.txns, s.tables.entries, Debited(q.req), t);
    }
  }

  lemma QuietMoveKeepsFunds(s: State, p: nat, m: Move)
    requires FundsInv(s) && p < |s.procs| && FundMove(s, s.procs[p], m) && !m.CommitPosting?
    ensures FundsInv(Apply(s, p, m))
  {
    var s' := Apply(s, p, m);
    if !m.Wait? {
      var q' := s.procs[p].(pc := m.pc);
      assert s'.tables == s.tables && s'.clock == s.clock && s'.c == s.c;
      assert s'.procs[p] == q';
      if Debiting(q') && !Debiting(s.procs[p]) {
        ReadCovers(s, q');
      }
      assert Covers(s, s.procs[p]);
      QuietFrame(s, s');
      forall i | 0 <= i < |s'.procs| ensures Covers(s', s'.procs[i]) {
        if i != p { assert Covers(s, s.procs[i]); }
      }
    }
  }

  lemma QuietFrame(s: State, s': State)
    requires s'.tables == s.tables && s'.c == s.c
    ensures NeverNegative(s) ==> NeverNegative(s')
    ensures forall q :: Covers(s, q) ==> Covers(s', q)
  {
    forall x: AccountId, t ensures BalanceThen(s', x, t) == BalanceThen(s, x, t) {}
  }

  // ---------------------------------------------------------------- the commit

  lemma CommitMovesMoney(s: State, p: nat, m: Move, x: AccountId, t: int)
    requires TimeInv(s) && p < |s.procs| && TypedMove(s.procs[p], m) && m.CommitPosting?
    ensures BalanceThen(Apply(s, p, m), x, t)
         == BalanceThen(s, x, t) + if m.at <= t then Delta(s.c, s.procs[p].req, x) else 0
  {
    PostMovesMoney(s.c, s.tables, s.procs[p].req, m.currency, m.at, p, x, t);
  }

  lemma CommitKeepsNonNegative(s: State, p: nat, m: Move)
    requires Typed(s) && FundsInv(s) && p < |s.procs| && TypedMove(s.procs[p], m) && m.CommitPosting?
    ensures NeverNegative(Apply(s, p, m))
  {
    var s', q := Apply(s, p, m), s.procs[p];
    forall x: AccountId, t | x != s.c.system ensures BalanceThen(s', x, t) >= 0 {
      CommitMovesMoney(s, p, m, x, t);
      if m.at <= t && Delta(s.c, q.req, x) < 0 {
        OnlyTheDebitedAccountLoses(s.c, q.req, x);
        assert Covers(s, q) && Timely(q.pc, s.clock);
        assert BalanceThen(s, Debited(q.req), t) + RoundCents(-Value(s.c, q.req)) >= 0;
      }
    }
  }

  /** Other pending debits stay covered: their source is locked by them, so this commit can only credit it. */
  lemma CommitKeepsCover(s: State, p: nat, m: Move, i: nat)
    requires Typed(s) && RowsSecured(s) && FundsInv(s) && p < |s.procs| && TypedMove(s.procs[p], m) && m.CommitPosting?
    requires i < |s.procs| && i != p && Debiting(s.procs[i]) && Debited(s.procs[i].req) != s.c.system
    ensures Delta(s.c, s.procs[p].req, Debited(s.procs[i].req)) >= 0
  {
    var q, x := s.procs[p], Debited(s.procs[i].req);
    if Delta(s.c, q.req, x) < 0 {
      OnlyTheDebitedAccountLoses(s.c, q.req, x);
      OneHolder(s, p, i, x);
    }
  }

  lemma CommitKeepsFunds(s: State, p: nat, m: Move)
    requires Typed(s) && RowsSecured(s) && FundsInv(s) && p < |s.procs| && TypedMove(s.procs[p], m) && m.CommitPosting?
    ensures FundsInv(Apply(s, p, m))
  {
    var s' := Apply(s, p, m);
    CommitKeepsNonNegative(s, p, m);
    CommitKeepsTime(s, p, m);
    forall i | 0 <= i < |s'.procs| ensures Covers(s', s'.procs[i]) {
      if i != p {
        var q := s.procs[i];
        assert s'.procs[i] == q && Covers(s, q);
        if Debiting(q) && Debited(q.req) != s.c.system {
          CommitKeepsCover(s, p, m, i);
          forall t | q.pc.asOf <= t ensures BalanceThen(s', Debited(q.req), t) >= BalanceThen(s, Debited(q.req), t) {
            CommitMovesMoney(s, p, m, Debited(q.req), t);
          }
        }
      }
    }
  }

  lemma CommitKeepsTime(s: State, p: nat, m: Move)
    requires TimeInv(s) && p < |s.procs| && TypedMove(s.procs[p], m) && m.CommitPosting?
    ensures TimeInv(Apply(s, p, m))
  {
    var s' := Apply(s, p, m);
    assert Timely(s.procs[p].pc, s.clock);
    forall i | 0 <= i < |s'.procs| ensures Timely(s'.procs[i].pc, s'.clock) {
      if i != p { assert s'.procs[i] == s.procs[i]; }
    }
  }

  // ---------------------------------------------------------------- every step

  lemma MoveKeepsFunds(s: State, p: nat, m: Move)
    requires Typed(s) && RowsSecured(s) && FundsInv(s) && p < |s.procs| && TypedMove(s.procs[p], m) && MayMove(s, p, m)
    ensures FundsInv(Apply(s, p, m))
  {
    if m.CommitPosting? {
      CommitKeepsFunds(s, p, m);
    } else {
      MovesAreFundMoves(s, p, m);
      QuietMoveKeepsFunds(s, p, m);
    }
  }

  lemma OutsideStepKeepsFunds(s: State, s': State)
    requires FundsInv(s) && s'.tables == s.tables && s'.c == s.c && s'.procs == s.procs && s.clock <= s'.clock
    ensures FundsInv(s')
  {
    QuietFrame(s, s');
    forall i | 0 <= i < |s'.procs| ensures Timely(s'.procs[i].pc, s'.clock) {
      assert Timely(s.procs[i].pc, s.clock);
    }
    assert forall i :: 0 <= i < |s'.procs| ==> Covers(s, s.procs[i]);
  }

  lemma FundsInvStep(s: State, a: Action)
    requires Typed(s) && RowsSecured(s) && FundsInv(s)
    ensures FundsInv(Step(s, a))
  {
    var s' := Step(s, a);
    StepCases(s, a);
    if s'.tables == s.tables && s'.c == s.c && s'.procs == s.procs {
      OutsideStepKeepsFunds(s, s');
    } else {
      var m :| TypedMove(s.procs[a.p], m) && MayMove(s, a.p, m) && s' == Apply(s, a.p, m);
      MoveKeepsFunds(s, a.p, m);
    }
  }

  /** With a clock that has reached every stamp, the current balance is one of the point-in-time ones. */
  lemma CurrentBalanceIsNonNegative(s: State, x: AccountId)
    requires FundsInv(s) && x != s.c.system
    ensures Balance(s.tables.entries, x) >= 0
  {
    BalanceAtNow(s.tables.txns, s.tables.entries, x, s.clock);
    assert BalanceThen(s, x, s.clock) >= 0;
  }

  // ---------------------------------------------------------------- when the past is final

  /** No uncommitted call carries a stamp at or before t, and the clock has passed t. */
  ghost predicate Settled(s: State, t: int) {
    t < s.clock && forall p :: 0 <= p < |s.procs| ==> LateStamp(s.procs[p].pc, t)
  }

  predicate LateStamp(pc: Pc, t: int) {
    pc.Stamped? || pc.Inserted? ==> t < pc.at
  }

  lemma SettledMove(s: State, p: nat, m: Move, x: AccountId, t: int)
    requires TimeInv(s) && Settled(s, t) && p < |s.procs| && TypedMove(s.procs[p], m) && FundMove(s, s.procs[p], m)
    ensures Settled(Apply(s, p, m), t) && BalanceThen(Apply(s, p, m), x, t) == BalanceThen(s, x, t)
  {
    var s' := Apply(s, p, m);
    forall i | 0 <= i < |s'.procs| ensures LateStamp(s'.procs[i].pc, t) {
      assert LateStamp(s.procs[i].pc, t);
    }
    if m.CommitPosting? {
      CommitMovesMoney(s, p, m, x, t);
    }
  }

  lemma SettledStep(s: State, a: Action, x: AccountId, t: int)
    requires Typed(s) && TimeInv(s) && Settled(s, t)
    ensures Settled(Step(s, a), t) && BalanceThen(Step(s, a), x, t) == BalanceThen(s, x, t)
  {
    StepCases(s, a);
    if (a.Run? || a.Crash?) && a.p < |s.procs| && Step(s, a) != s {
      var m :| TypedMove(s.procs[a.p], m) && MayMove(s, a.p, m) && Step(s, a) == Apply(s, a.p, m);
      MovesAreFundMoves(s, a.p, m);
      SettledMove(s, a.p, m, x, t);
    } else {
      SettledFrame(s, Step(s, a), x, t);
    }
  }

  lemma SettledFrame(s: State, s': State, x: AccountId, t: int)
    requires Settled(s, t) && s'.tables == s.tables && s'.procs == s.procs && s.clock <= s'.clock
    ensures Settled(s', t) && BalanceThen(s', x, t) == BalanceThen(s, x, t)
  {
    assert forall p :: 0 <= p < |s.procs| ==> LateStamp(s.procs[p].pc, t);
  }

  /** Otherwise it is not final: an uncommitted posting stamped by then still changes the answer when it commits. */
  lemma UnsettledAnswerChanges(s: State, p: nat, redis: Redis, x: AccountId, t: int)
    requires Typed(s) && TimeInv(s) && p < |s.procs| && s.procs[p].pc.Inserted?
    ensures BalanceThen(Step(s, Run(p, redis)), x, t) != BalanceThen(s, x, t)
       <==> s.procs[p].pc.at <= t && Delta(s.c, s.procs[p].req, x) != 0
  {
    DecideTyped(s, s.procs[p], redis);
    CommitMovesMoney(s, p, MoveOf(s, p, redis), x, t);
  }
}
