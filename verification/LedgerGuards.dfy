/**
 * What holds when a posting commits, in every run: a withdrawal or transfer commits only against
 * accounts that are ACTIVE at that very moment, since the rows it checked stay locked; and every
 * outbox row carries the currency of the account it names.
 */
module LedgerGuards {
  import opened Prelude
  import opened LedgerTables
  import opened LedgerMachine
  import opened LedgerLocks
  import opened LedgerTheorems

  predicate ActiveNow(s: State, a: AccountId) {
    a in s.accounts && s.accounts[a].status == Active
  }

  /** What a call that has passed its checks still knows. A deposit holds no lock: its account may be frozen since. */
  ghost predicate StillChecked(s: State, q: Proc) {
    match q.req
    case Deposit(a, _) => q.pc.AccountRead? || FullyLocked(q.pc) ==> a in s.accounts
    case Withdrawal(a, _) => FullyLocked(q.pc) ==> ActiveNow(s, a)
    case Transfer(a, b, _, _) =>
      FullyLocked(q.pc) ==>
        a != b && ActiveNow(s, a) && ActiveNow(s, b) && s.accounts[a].currency == s.accounts[b].currency
    case BalanceQuery(_) => true
  }

  ghost predicate AllChecked(s: State) {
    forall p :: 0 <= p < |s.procs| ==> StillChecked(s, s.procs[p])
  }

  lemma DecideChecks(s: State, q: Proc, redis: Redis)
    requires TypedPc(q) && StillChecked(s, q) && WantsInOrder(q)
    ensures var m := Decide(s, q, redis); !m.Wait? && !m.CommitPosting? ==> StillChecked(s, q.(pc := m.pc))
  {
  }

  lemma MoveKeepsChecks(s: State, p: nat, m: Move)
    requires AllChecked(s) && p < |s.procs| && (m.CommitPosting? ==> Posts(s.procs[p].req))
    requires !m.Wait? && !m.CommitPosting? ==> StillChecked(s, s.procs[p].(pc := m.pc))
    ensures AllChecked(Apply(s, p, m))
  {
    var s' := Apply(s, p, m);
    forall i | 0 <= i < |s'.procs| ensures StillChecked(s', s'.procs[i]) {
      assert StillChecked(s, s.procs[i]);
    }
  }

  lemma RunKeepsChecks(s: State, p: nat, redis: Redis)
    requires Typed(s) && LockInv(s) && AllChecked(s) && p < |s.procs|
    ensures AllChecked(Step(s, Run(p, redis)))
  {
    DecideTyped(s, s.procs[p], redis);
    assert StillChecked(s, s.procs[p]) && WantsInOrder(s.procs[p]);
    DecideChecks(s, s.procs[p], redis);
    MoveKeepsChecks(s, p, MoveOf(s, p, redis));
  }

  /** An administrator's update waits for the row lock, so it meets no account that is checked and locked. */
  lemma LockedRowsStay(s: State, a: Action, p: nat, x: AccountId)
    requires RowsSecured(s) && a.Admin? && p < |s.procs|
    requires FullyLocked(s.procs[p].pc) && x in RowsToLock(s.procs[p].req)
    ensures x in Step(s, a).accounts <==> x in s.accounts
    ensures x in s.accounts ==> Step(s, a).accounts[x] == s.accounts[x]
  {
    assert MustHold(s.procs[p], x);
  }

  lemma AdminKeepsCheck(s: State, a: Action, p: nat)
    requires RowsSecured(s) && a.Admin? && p < |s.procs| && StillChecked(s, s.procs[p])
    ensures StillChecked(Step(s, a), s.procs[p])
  {
    var q := s.procs[p];
    if FullyLocked(q.pc) {
      match q.req {
        case Withdrawal(x, _) => LockedRowsStay(s, a, p, x);
        case Transfer(x, y, _, _) =>
          LockedRowsStay(s, a, p, x);
          LockedRowsStay(s, a, p, y);
        case _ =>
      }
    }
  }

  lemma AdminKeepsChecks(s: State, a: Action)
    requires RowsSecured(s) && AllChecked(s) && a.Admin?
    ensures AllChecked(Step(s, a))
  {
    forall p | 0 <= p < |s.procs| ensures StillChecked(Step(s, a), s.procs[p]) {
      AdminKeepsCheck(s, a, p);
    }
  }

  lemma CheckedStep(s: State, a: Action)
    requires Typed(s) && LockInv(s) && AllChecked(s)
    ensures AllChecked(Step(s, a))
  {
    if a.Run? && a.p < |s.procs| { RunKeepsChecks(s, a.p, a.redis); }
    else if a.Crash? && a.p < |s.procs| && !s.procs[a.p].pc.Done? { MoveKeepsChecks(s, a.p, Rollback(Done(Crashed))); }
    else if a.Admin? { AdminKeepsChecks(s, a); }
    else { assert forall p :: 0 <= p < |s.procs| ==> StillChecked(s, s.procs[p]); }
  }

  // ---------------------------------------------------------------- the label of an outbox row

  /** The account whose currency a row reports. */
  function Named(e: Event): Option<AccountId> {
    if e.kind.TransferPosted? then Party(e.payload, KeyFromAccountId) else Party(e.payload, KeyAccountId)
  }

  ghost predicate LabelOk(s: State, e: Event) {
    && KeyTransactionId in e.payload && e.payload[KeyTransactionId] == TxnField(e.aggregate)
    && Named(e).Some? && Named(e).value in s.accounts
    && KeyCurrency in e.payload && e.payload[KeyCurrency] == TextField(s.accounts[Named(e).value].currency)
  }

  ghost predicate AllLabelled(s: State) {
    forall e :: e in s.tables.outbox ==> LabelOk(s, e)
  }

  /** No step removes an account or changes its currency. */
  lemma CurrencyIsFixed(s: State, a: Action, x: AccountId)
    requires Typed(s) && x in s.accounts
    ensures x in Step(s, a).accounts && Step(s, a).accounts[x].currency == s.accounts[x].currency
  {
    if a.Run? && a.p < |s.procs| { DecideTyped(s, s.procs[a.p], a.redis); }
  }

  lemma NewLabel(s: State, p: nat, currency: string, at: int)
    requires p < |s.procs| && Posts(s.procs[p].req) && s.procs[p].pc.Inserted? && StillChecked(s, s.procs[p])
    requires var req := s.procs[p].req;
      currency == s.accounts[if req.Transfer? then req.source else req.account].currency
    ensures var t' := Post(s.c, s.tables, s.procs[p].req, currency, at, p);
      |t'.outbox| == |s.tables.outbox| + 1 && t'.outbox[..|s.tables.outbox|] == s.tables.outbox
      && LabelOk(s, t'.outbox[|s.tables.outbox|])
  {
  }

  lemma LabelledStep(s: State, a: Action)
    requires Typed(s) && AllChecked(s) && AllLabelled(s)
    ensures AllLabelled(Step(s, a))
  {
    var s' := Step(s, a);
    CommitOrQuiet(s, a);
    if s'.tables != s.tables {
      var req := s.procs[a.p].req;
      assert StillChecked(s, s.procs[a.p]);
      CommitsThis(s, a.p, a.redis);
      NewLabel(s, a.p, CurrencyOf(s.accounts, req), s.procs[a.p].pc.at);
    }
    forall e | e in s'.tables.outbox ensures LabelOk(s', e) {
      assert LabelOk(s, e);
      CurrencyIsFixed(s, a, Named(e).value);
    }
  }

  lemma CommitsThis(s: State, p: nat, redis: Redis)
    requires p < |s.procs| && TypedPc(s.procs[p]) && s.procs[p].pc.Inserted?
    ensures Posts(s.procs[p].req)
    ensures Step(s, Run(p, redis)).tables
         == Post(s.c, s.tables, s.procs[p].req, CurrencyOf(s.accounts, s.procs[p].req), s.procs[p].pc.at, p)
  {
  }

  // ---------------------------------------------------------------- every run

  lemma {:induction false} GuardedRun(s0: State, actions: seq<Action>)
    requires Initial(s0)
    ensures Sound(Exec(s0, actions)) && AllChecked(Exec(s0, actions)) && AllLabelled(Exec(s0, actions))
  {
    SoundInitially(s0);
    if actions != [] {
      var init, last := actions[..|actions| - 1], actions[|actions| - 1];
      GuardedRun(s0, init);
      SoundStep(Exec(s0, init), last);
      CheckedStep(Exec(s0, init), last);
      LabelledStep(Exec(s0, init), last);
    }
  }

  /**
   * Whenever a step of a run commits a withdrawal or a transfer, its accounts exist and are ACTIVE
   * in the state of that commit, and a transfer's are two different ones of one currency.
   */
  lemma CommitsMeetActiveAccounts(s0: State, actions: seq<Action>, a: Action)
    requires Initial(s0) && Step(Exec(s0, actions), a).tables != Exec(s0, actions).tables
    ensures var s := Exec(s0, actions);
      && a.Run? && a.p < |s.procs|
      && (s.procs[a.p].req.Withdrawal? ==> ActiveNow(s, s.procs[a.p].req.account))
      && (s.procs[a.p].req.Transfer? ==>
            && s.procs[a.p].req.source != s.procs[a.p].req.destination
            && ActiveNow(s, s.procs[a.p].req.source) && ActiveNow(s, s.procs[a.p].req.destination)
            && s.accounts[s.procs[a.p].req.source].currency == s.accounts[s.procs[a.p].req.destination].currency)
  {
    var s := Exec(s0, actions);
    GuardedRun(s0, actions);
    CommitOrQuiet(s, a);
    assert StillChecked(s, s.procs[a.p]);
  }

  /** In every run each outbox row names its transaction and carries the currency of the account it names. */
  lemma RowsCarryTheirCurrency(s0: State, actions: seq<Action>, e: Event)
    requires Initial(s0) && e in Exec(s0, actions).tables.outbox
    ensures var s := Exec(s0, actions); var key := if e.kind.TransferPosted? then KeyFromAccountId else KeyAccountId;
      && e.aggregate in s.tables.txns
      && KeyTransactionId in e.payload && e.payload[KeyTransactionId] == TxnField(e.aggregate)
      && key in e.payload && e.payload[key].IdField? && e.payload[key].id in s.accounts
      && KeyCurrency in e.payload
      && e.payload[KeyCurrency] == TextField(s.accounts[e.payload[key].id].currency)
  {
    GuardedRun(s0, actions);
    assert LabelOk(Exec(s0, actions), e);
  }
}
