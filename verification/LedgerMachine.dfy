/**
 * Every create_deposit, create_withdrawal, create_transfer and get_balance call is a process
 * with its own program counter. One step is one database or Redis statement, under
 * READ COMMITTED: a read sees what is committed when it runs, a row lock or a unique-key slot
 * held by an uncommitted call makes the step wait (it leaves the state as it is).
 */
module LedgerMachine {
  import opened Prelude
  import opened LedgerTables

  datatype AccountStatus = Active | Frozen | Closed
  datatype Account = Account(status: AccountStatus, currency: string)

  datatype Reason =
    | AccountNotFound
    | AccountNotActive
    | SystemCashNotFound
    | SameAccount
    | CurrencyMismatch
    | InsufficientFunds
    | KeyUsedForDifferentRequest
    | IntegrityErrorRaised

  datatype Outcome =
    | Posted(txn: nat)        // this call committed the transaction
    | Replayed(txn: nat)      // an earlier call with the key had committed it
    | BalanceIs(cents: int)
    | Failed(reason: Reason)
    | Crashed

  /** `asOf` is the clock when the balance was read, `at` the created_at stamp. */
  datatype Pc =
    | Start
    | KeyAbsent                                       // fast idempotency check found nothing
    | Locking(want: seq<AccountId>, found: nat)       // inside SELECT ... FOR UPDATE
    | Locked                                          // rows held and acceptable; balance not read yet
    | AccountRead                                     // deposit: account row read, no lock
    | Funded(asOf: int)                               // withdrawal: funds suffice, SYSTEM_CASH not read yet
    | Cleared(asOf: int)                              // about to build the transaction
    | Stamped(at: int, asOf: int)                     // INSERT issued; waits while the key is held elsewhere
    | Inserted(at: int, asOf: int)                    // flushed, not committed
    | Committed(txn: nat, stale: seq<AccountId>)      // cache keys still to delete
    | Violated                                        // unique violation, rolled back, key not re-read yet
    | CacheMissed
    | RowSeen
    | BalanceRead(cents: int)
    | Done(outcome: Outcome)

  datatype Proc = Proc(req: Request, pc: Pc)

  datatype State = State(
    c: Config,
    accounts: map<AccountId, Account>,
    tables: Tables,
    locks: map<AccountId, nat>,   // row locks, by owner
    keys: map<string, nat>,       // inserted, uncommitted idempotency keys, by owner
    clock: int,
    cache: map<AccountId, int>,
    procs: seq<Proc>)

  /** A Redis call works, fails, or takes effect and still reports an error. */
  datatype Redis = Works | Fails | WorksButRaises

  datatype Action =
    | Run(p: nat, redis: Redis)
    | Crash(p: nat)
    | Tick(d: nat)
    | Admin(account: AccountId, status: AccountStatus, currency: string)

  // ---------------------------------------------------------------- requests and their rows

  /** Rows to lock, in ascending id order: sorted([from, to]) and ORDER BY account_id. */
  function RowsToLock(req: Request): seq<AccountId> {
    match req
    case Withdrawal(a, _) => [a]
    case Transfer(a, b, _, _) => if a < b then [a, b] else [b, a]
    case _ => []
  }

  function Present(accounts: map<AccountId, Account>, rows: seq<AccountId>): seq<AccountId> {
    if rows == [] then []
    else (if rows[0] in accounts then [rows[0]] else []) + Present(accounts, rows[1..])
  }

  /** Checks on the locked rows, in the order the code makes them. */
  function RowProblem(accounts: map<AccountId, Account>, req: Request, found: nat): Option<Reason> {
    match req
    case Withdrawal(a, _) =>
      if a !in accounts || found != 1 then Some(AccountNotFound)
      else if accounts[a].status != Active then Some(AccountNotActive)
      else None
    case Transfer(a, b, _, _) =>
      if a !in accounts || b !in accounts || found != 2 then Some(AccountNotFound)
      else if accounts[a].status != Active || accounts[b].status != Active then Some(AccountNotActive)
      else if accounts[a].currency != accounts[b].currency then Some(CurrencyMismatch)
      else None
    case _ => None
  }

  /** Cache keys deleted after commit; SYSTEM_CASH is not among them unless it is a named party. */
  function TouchedByCommit(req: Request): seq<AccountId> {
    match req
    case Deposit(a, _) => [a]
    case Withdrawal(a, _) => [a]
    case Transfer(a, b, _, _) => [a, b]
    case BalanceQuery(_) => []
  }

  /** The payer's currency, which the outbox row carries. */
  function CurrencyOf(accounts: map<AccountId, Account>, req: Request): string {
    var a := if req.Transfer? then req.source else req.account;
    if a in accounts then accounts[a].currency else ""
  }

  // ---------------------------------------------------------------- one statement of one call

  /** What a statement does, besides moving the program counter of its own call. */
  datatype Move =
    | Wait
    | Goto(pc: Pc)
    | LockRow(row: AccountId, pc: Pc)
    | HoldKey(key: string, pc: Pc)
    | Rollback(pc: Pc)                              // transaction over, nothing written
    | CommitPosting(at: int, currency: string)
    | SetCache(account: AccountId, cents: int, pc: Pc)
    | DropCache(account: AccountId, pc: Pc)

  function Fail(reason: Reason): Move { Rollback(Done(Failed(reason))) }

  function Begin(s: State, q: Proc, redis: Redis): Move
    requires q.req.Deposit? || q.req.BalanceQuery?
  {
    var a := q.req.account;
    if q.req.BalanceQuery? then
      if redis.Works? && a in s.cache then Goto(Done(BalanceIs(s.cache[a]))) else Goto(CacheMissed)
    else if a !in s.accounts then Fail(AccountNotFound)
    else if s.accounts[a].status != Active then Fail(AccountNotActive)
    else Goto(AccountRead)
  }

  function SelectForUpdate(s: State, q: Proc): Move {
    var rows := Present(s.accounts, RowsToLock(q.req));
    if q.req.Transfer? && q.req.source == q.req.destination then Fail(SameAccount)
    else Goto(Locking(rows, |rows|))
  }

  function SeekRow(s: State, q: Proc, want: seq<AccountId>, found: nat): Move {
    if want == [] then
      match RowProblem(s.accounts, q.req, found)
      case Some(problem) => Fail(problem)
      case None => Goto(Locked)
    else if want[0] in s.locks then Wait
    else LockRow(want[0], Locking(want[1..], found))
  }

  /** Look the key up: replay the transaction found, refuse another request's key, or go on. */
  ghost function CheckKey(s: State, q: Proc, absent: Move): Move
    requires q.req.Transfer?
  {
    match FindKey(s.tables.txns, q.req.key)
    case None => absent
    case Some(id) =>
      if s.tables.txns[id].requestHash == Some(HashOf(s.c, q.req)) then Rollback(Done(Replayed(id)))
      else Fail(KeyUsedForDifferentRequest)
  }

  function Debited(req: Request): AccountId
    requires req.Withdrawal? || req.Transfer?
  {
    if req.Transfer? then req.source else req.account
  }

  function ReadFunds(s: State, q: Proc): Move
    requires q.req.Withdrawal? || q.req.Transfer?
  {
    if Balance(s.tables.entries, Debited(q.req)) as real < Value(s.c, q.req) then Fail(InsufficientFunds)
    else if q.req.Transfer? then Goto(Cleared(s.clock))
    else Goto(Funded(s.clock))
  }

  function ReadSystemCash(s: State, asOf: int): Move {
    if s.c.system in s.accounts then Goto(Cleared(asOf)) else Fail(SystemCashNotFound)
  }

  ghost function Insert(s: State, q: Proc, at: int, asOf: int): Move {
    if !q.req.Transfer? then Goto(Inserted(at, asOf))
    else if KeyTaken(s.tables.txns, q.req.key) then Rollback(Violated)
    else if q.req.key in s.keys then Wait
    else HoldKey(q.req.key, Inserted(at, asOf))
  }

  /** A failed delete is logged and the remaining one skipped: one try block holds both. */
  function Invalidate(txn: nat, stale: seq<AccountId>, redis: Redis): Move {
    if stale == [] || redis.Fails? then Goto(Done(Posted(txn)))
    else DropCache(stale[0], if redis.Works? then Committed(txn, stale[1..]) else Done(Posted(txn)))
  }

  ghost function Decide(s: State, q: Proc, redis: Redis): Move
    requires TypedPc(q)
  {
    match q.pc
    case Start =>
      if q.req.Transfer? then CheckKey(s, q, Goto(KeyAbsent))
      else if q.req.Withdrawal? then SelectForUpdate(s, q)
      else Begin(s, q, redis)
    case KeyAbsent => SelectForUpdate(s, q)
    case Locking(want, found) => SeekRow(s, q, want, found)
    case Locked => ReadFunds(s, q)
    case AccountRead => ReadSystemCash(s, s.clock)
    case Funded(asOf) => ReadSystemCash(s, asOf)
    case Cleared(asOf) => Goto(Stamped(s.clock, asOf))
    case Stamped(at, asOf) => Insert(s, q, at, asOf)
    case Inserted(at, _) => CommitPosting(at, CurrencyOf(s.accounts, q.req))
    case Committed(txn, stale) => Invalidate(txn, stale, redis)
    case Violated => CheckKey(s, q, Fail(IntegrityErrorRaised))
    case CacheMissed => if q.req.account in s.accounts then Goto(RowSeen) else Fail(AccountNotFound)
    case RowSeen => Goto(BalanceRead(Balance(s.tables.entries, q.req.account)))
    case BalanceRead(v) =>
      if redis.Fails? then Goto(Done(BalanceIs(v))) else SetCache(q.req.account, v, Done(BalanceIs(v)))
    case Done(_) => Wait
  }

  // ---------------------------------------------------------------- steps of the system

  function Release<T>(held: map<T, nat>, p: nat): map<T, nat> {
    map a | a in held && held[a] != p :: held[a]
  }

  function WithPc(s: State, p: nat, pc: Pc): State
    requires p < |s.procs|
  {
    s.(procs := s.procs[p := s.procs[p].(pc := pc)])
  }

  /** Commit, rollback and a closed session all drop what the call holds. */
  function Unlocked(s: State, p: nat): State {
    s.(locks := Release(s.locks, p), keys := Release(s.keys, p))
  }

  function Apply(s: State, p: nat, m: Move): State
    requires p < |s.procs| && (m.CommitPosting? ==> Posts(s.procs[p].req))
  {
    match m
    case Wait => s
    case Goto(pc) => WithPc(s, p, pc)
    case LockRow(row, pc) => WithPc(s, p, pc).(locks := s.locks[row := p])
    case HoldKey(key, pc) => WithPc(s, p, pc).(keys := s.keys[key := p])
    case Rollback(pc) => WithPc(Unlocked(s, p), p, pc)
    case CommitPosting(at, currency) =>
      var req := s.procs[p].req;
      WithPc(Unlocked(s, p), p, Committed(s.tables.nextId, TouchedByCommit(req)))
        .(tables := Post(s.c, s.tables, req, currency, at, p))
    case SetCache(a, v, pc) => WithPc(s, p, pc).(cache := s.cache[a := v])
    case DropCache(a, pc) => WithPc(s, p, pc).(cache := s.cache - {a})
  }

  /** What the call p does next. */
  ghost function MoveOf(s: State, p: nat, redis: Redis): Move
    requires p < |s.procs|
  {
    if TypedPc(s.procs[p]) then Decide(s, s.procs[p], redis) else Wait
  }

  /** One step of the system. An action that is not possible leaves the state unchanged. */
  ghost function Step(s: State, a: Action): State {
    match a
    case Run(p, redis) => if p < |s.procs| then Apply(s, p, MoveOf(s, p, redis)) else s
    case Crash(p) =>
      if p < |s.procs| && !s.procs[p].pc.Done? then Apply(s, p, Rollback(Done(Crashed))) else s
    case Tick(d) => s.(clock := s.clock + d)
    case Admin(a, status, currency) =>
      // an UPDATE of the row waits for its lock; currency is set once, at creation
      if a in s.locks then s
      else s.(accounts :=
        s.accounts[a := Account(status, if a in s.accounts then s.accounts[a].currency else currency)])
  }

  ghost function Exec(s: State, actions: seq<Action>): State {
    if actions == [] then s
    else Step(Exec(s, actions[..|actions| - 1]), actions[|actions| - 1])
  }

  /** Any accounts, any calls (each not yet started), empty tables, nothing held, an empty cache. */
  ghost predicate Initial(s: State) {
    && s.tables == EMPTY
    && s.locks == map[] && s.keys == map[] && s.cache == map[]
    && (forall p :: 0 <= p < |s.procs| ==> s.procs[p].pc == Start && Acceptable(s.c, s.procs[p].req))
  }

  /** What no step changes. */
  ghost predicate SameCalls(s: State, s': State) {
    && s'.c == s.c
    && |s'.procs| == |s.procs|
    && (forall p :: 0 <= p < |s.procs| ==> s'.procs[p].req == s.procs[p].req)
  }

  ghost predicate TypedPc(q: Proc) {
    match q.pc
    case KeyAbsent => q.req.Transfer?
    case Locking(_, _) => q.req.Transfer? || q.req.Withdrawal?
    case Locked => q.req.Transfer? || q.req.Withdrawal?
    case AccountRead => q.req.Deposit?
    case Funded(_) => q.req.Withdrawal?
    case Cleared(_) => Posts(q.req)
    case Stamped(_, _) => Posts(q.req)
    case Inserted(_, _) => Posts(q.req)
    case Violated => q.req.Transfer?
    case CacheMissed => q.req.BalanceQuery?
    case RowSeen => q.req.BalanceQuery?
    case BalanceRead(_) => q.req.BalanceQuery?
    case _ => true
  }

  ghost predicate Typed(s: State) {
    forall p :: 0 <= p < |s.procs| ==> TypedPc(s.procs[p]) && Acceptable(s.c, s.procs[p].req)
  }

  /** A move the call's program counter allows. */
  ghost predicate TypedMove(q: Proc, m: Move) {
    && (m.CommitPosting? <==> q.pc.Inserted? && m != Rollback(Done(Crashed)))
    && (m.CommitPosting? ==> Posts(q.req) && m.at == q.pc.at)
    && (!m.Wait? && !m.CommitPosting? ==> TypedPc(q.(pc := m.pc)))
  }

  lemma DecideTyped(s: State, q: Proc, redis: Redis)
    requires TypedPc(q)
    ensures TypedMove(q, Decide(s, q, redis))
  {
  }

  /** The step a scheduled call takes: its own next move, or a crash. */
  ghost predicate MayMove(s: State, p: nat, m: Move)
    requires p < |s.procs|
  {
    || (exists redis :: m == MoveOf(s, p, redis))
    || (m == Rollback(Done(Crashed)) && !s.procs[p].pc.Done?)
  }

  /** Every step is a move of one call, the clock, or an account row. */
  lemma StepCases(s: State, a: Action)
    requires Typed(s)
    ensures var s' := Step(s, a);
      || s' == s
      || (a.Tick? && s' == s.(clock := s.clock + a.d))
      || (a.Admin? && a.account !in s.locks && s' == s.(accounts := s'.accounts) && s.accounts.Keys <= s'.accounts.Keys)
      || ((a.Run? || a.Crash?) && a.p < |s.procs| && exists m ::
            TypedMove(s.procs[a.p], m) && MayMove(s, a.p, m) && s' == Apply(s, a.p, m))
  {
    if a.Run? && a.p < |s.procs| {
      DecideTyped(s, s.procs[a.p], a.redis);
      assert MayMove(s, a.p, MoveOf(s, a.p, a.redis));
    } else if a.Crash? && a.p < |s.procs| && !s.procs[a.p].pc.Done? {
      var m := Rollback(Done(Crashed));
      assert TypedMove(s.procs[a.p], m) && MayMove(s, a.p, m);
    }
  }

  lemma TypedApply(s: State, p: nat, m: Move)
    requires Typed(s) && p < |s.procs| && TypedMove(s.procs[p], m)
    ensures Typed(Apply(s, p, m)) && SameCalls(s, Apply(s, p, m))
  {
    var s' := Apply(s, p, m);
    assert s'.c == s.c && |s'.procs| == |s.procs| && s'.procs[p].req == s.procs[p].req;
    assert forall i :: 0 <= i < |s.procs| && i != p ==> s'.procs[i] == s.procs[i];
  }

  lemma TypedStep(s: State, a: Action)
    requires Typed(s)
    ensures Typed(Step(s, a)) && SameCalls(s, Step(s, a))
  {
    StepCases(s, a);
    var s' := Step(s, a);
    if s'.procs == s.procs && s'.c == s.c {
    } else {
      var m :| TypedMove(s.procs[a.p], m) && MayMove(s, a.p, m) && s' == Apply(s, a.p, m);
      TypedApply(s, a.p, m);
    }
  }

  /** The tables are written by commits alone, all of a posting at once. */
  lemma CommitOrQuiet(s: State, a: Action)
    requires Typed(s)
    ensures var s' := Step(s, a);
      s'.tables == s.tables
      || (a.Run? && a.p < |s.procs| && s.procs[a.p].pc.Inserted? && Posts(s.procs[a.p].req)
          && exists currency, at :: s'.tables == Post(s.c, s.tables, s.procs[a.p].req, currency, at, a.p))
  {
    if a.Run? && a.p < |s.procs| {
      DecideTyped(s, s.procs[a.p], a.redis);
    }
  }

  // ---------------------------------------------------------------- schedules

  lemma LastStep(s: State, all: seq<Action>, init: seq<Action>, last: Action)
    requires all == init + [last]
    ensures Exec(s, all) == Step(Exec(s, init), last)
  {
    assert all[..|all| - 1] == init;
    assert all[|all| - 1] == last;
  }

  lemma LastApart(first: seq<Action>, second: seq<Action>)
    requires second != []
    ensures second == second[..|second| - 1] + [second[|second| - 1]]
    ensures first + second == (first + second[..|second| - 1]) + [second[|second| - 1]]
  {
  }

  lemma {:induction false} ExecConcat(s: State, first: seq<Action>, second: seq<Action>)
    ensures Exec(s, first + second) == Exec(Exec(s, first), second)
  {
    if second == [] {
      assert first + second == first;
    } else {
      var init, last := second[..|second| - 1], second[|second| - 1];
      ExecConcat(s, first, init);
      LastApart(first, second);
      LastStep(s, first + second, first + init, last);
      LastStep(Exec(s, first), second, init, last);
    }
  }

  lemma OneStep(s: State, a: Action)
    ensures Exec(s, [a]) == Step(s, a)
  {
    LastStep(s, [a], [], a);
  }

  /** Nobody crashes and Redis works. */
  ghost predicate Undisrupted(actions: seq<Action>) {
    forall i :: 0 <= i < |actions| ==> actions[i].Run? && actions[i].redis.Works?
  }

  // ---------------------------------------------------------------- one call among others

  /** The schedule lets call p alone: it neither runs nor crashes. */
  ghost predicate WithoutCall(actions: seq<Action>, p: nat) {
    forall i :: 0 <= i < |actions| ==> LeavesAlone(actions[i], p)
  }

  predicate LeavesAlone(a: Action, p: nat) {
    !((a.Run? || a.Crash?) && a.p == p)
  }

  /** Only call p runs, and Redis works. */
  ghost predicate OnlyCall(actions: seq<Action>, p: nat) {
    forall i :: 0 <= i < |actions| ==> actions[i] == Run(p, Works)
  }

  /** Call p alone, whatever Redis does at each of its steps. */
  function Alone(p: nat, redis: seq<Redis>): seq<Action> {
    seq(|redis|, i requires 0 <= i < |redis| => Run(p, redis[i]))
  }

  lemma AloneOneMore(s: State, p: nat, redis: seq<Redis>)
    requires redis != []
    ensures Exec(s, Alone(p, redis)) == Step(Exec(s, Alone(p, redis[..|redis| - 1])), Run(p, redis[|redis| - 1]))
  {
    LastStep(s, Alone(p, redis), Alone(p, redis[..|redis| - 1]), Run(p, redis[|redis| - 1]));
  }

  lemma ApplyTouchesOne(s: State, i: nat, m: Move, p: nat)
    requires i < |s.procs| && p < |s.procs| && i != p && (m.CommitPosting? ==> Posts(s.procs[i].req))
    ensures |Apply(s, i, m).procs| == |s.procs| && Apply(s, i, m).procs[p] == s.procs[p]
  {
  }

  lemma OtherStep(s: State, a: Action, p: nat)
    requires Typed(s) && p < |s.procs| && LeavesAlone(a, p)
    ensures |Step(s, a).procs| == |s.procs| && Step(s, a).procs[p] == s.procs[p]
  {
    if a.Run? && a.p < |s.procs| {
      DecideTyped(s, s.procs[a.p], a.redis);
      ApplyTouchesOne(s, a.p, MoveOf(s, a.p, a.redis), p);
    }
  }

  /** Only its own steps move a call. */
  lemma {:induction false} OthersLeaveItAlone(s: State, actions: seq<Action>, p: nat)
    requires Typed(s) && p < |s.procs| && WithoutCall(actions, p)
    ensures Typed(Exec(s, actions)) && SameCalls(s, Exec(s, actions)) && Exec(s, actions).procs[p] == s.procs[p]
  {
    if actions != [] {
      var init, last := actions[..|actions| - 1], actions[|actions| - 1];
      assert LeavesAlone(last, p);
      OthersLeaveItAlone(s, init, p);
      TypedStep(Exec(s, init), last);
      OtherStep(Exec(s, init), last, p);
    }
  }

  /** No step alters or removes a committed transaction. */
  lemma TxnsAreKept(s: State, a: Action, id: nat)
    requires Typed(s) && s.tables.nextId !in s.tables.txns && id in s.tables.txns
    ensures id in Step(s, a).tables.txns && Step(s, a).tables.txns[id] == s.tables.txns[id]
  {
    CommitOrQuiet(s, a);
  }
}
