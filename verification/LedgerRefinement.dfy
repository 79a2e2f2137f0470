/**
 * The service methods and the interleaved machine agree: a machine call that runs undisturbed
 * ends with the outcome, and the tables, that the methods of LedgerService promise.
 */
module LedgerRefinement {
  import opened Prelude
  import opened LedgerTables
  import opened LedgerMachine
  import opened LedgerLocks
  import opened LedgerReplay
  import opened LedgerService

  /** What a posting call deserves in the tables it starts from; Posted stands for the transaction it will insert. */
  ghost function Verdict(s: State, req: Request): Outcome
    requires Posts(req)
  {
    if req.Transfer? && KeyTaken(s.tables.txns, req.key) then
      var id := FindKey(s.tables.txns, req.key).value;
      RetryAnswer(s.c, s.tables.txns, id, req)
    else
      match Refusal(s.c, s.accounts, s.tables.entries, req)
      case Some(reason) => Failed(reason)
      case None => Posted(s.tables.nextId)
  }

  ghost predicate TablesAfter(s0: State, s: State, p: nat, req: Request)
    requires Posts(req)
  {
    if Verdict(s0, req).Posted? then s.tables == Post(s0.c, s0.tables, req, CurrencyOf(s0.accounts, req), s0.clock, p)
    else s.tables == s0.tables
  }

  /** Rows the call has found acceptable so far, by program counter. */
  predicate RowsAccepted(s: State, req: Request) {
    match req
    case Deposit(a, _) => a in s.accounts && s.accounts[a].status == Active
    case Withdrawal(a, _) => a in s.accounts && s.accounts[a].status == Active
    case Transfer(a, b, _, _) =>
      && a != b && a in s.accounts && b in s.accounts
      && s.accounts[a].status == Active && s.accounts[b].status == Active
      && s.accounts[a].currency == s.accounts[b].currency
    case BalanceQuery(_) => true
  }

  ghost predicate Underway(s0: State, q: Proc)
    requires Posts(q.req)
  {
    var k := q.req.Transfer? ==> !KeyTaken(s0.tables.txns, q.req.key);
    match q.pc
    case Start => true
    case KeyAbsent => k
    case Locking(_, found) =>
      k && (q.req.Transfer? ==> q.req.source != q.req.destination) && found == |Present(s0.accounts, RowsToLock(q.req))|
    case Locked => k && RowsAccepted(s0, q.req)
    case AccountRead => RowsAccepted(s0, q.req)
    case Funded(_) =>
      q.req.Withdrawal? && RowsAccepted(s0, q.req)
        && Balance(s0.tables.entries, q.req.account) as real >= Value(s0.c, q.req)
    case Cleared(_) => k && Refusal(s0.c, s0.accounts, s0.tables.entries, q.req) == None
    case Stamped(at, _) => k && Refusal(s0.c, s0.accounts, s0.tables.entries, q.req) == None && at == s0.clock
    case Inserted(at, _) => k && Refusal(s0.c, s0.accounts, s0.tables.entries, q.req) == None && at == s0.clock
    case _ => false
  }

  ghost predicate Undisturbed(s0: State, s: State, p: nat) {
    && p < |s0.procs| == |s.procs| && Posts(s0.procs[p].req) && s.procs[p].req == s0.procs[p].req && TypedPc(s.procs[p])
    && s.c == s0.c && s.accounts == s0.accounts && s.clock == s0.clock
    && (forall i :: 0 <= i < |s.procs| && i != p ==> s.procs[i] == s0.procs[i])
    && var q := s.procs[p];
       if q.pc.Committed? then Verdict(s0, q.req) == Posted(q.pc.txn) && TablesAfter(s0, s, p, q.req)
       else if q.pc.Done? then Verdict(s0, q.req) == q.pc.outcome && TablesAfter(s0, s, p, q.req)
       else s.tables == s0.tables && Underway(s0, q)
  }

  lemma PresentCounts(accounts: map<AccountId, Account>, req: Request)
    ensures req.Withdrawal? ==> (|Present(accounts, RowsToLock(req))| == 1 <==> req.account in accounts)
    ensures req.Transfer? ==>
      (|Present(accounts, RowsToLock(req))| == 2 <==> req.source in accounts && req.destination in accounts)
  {
    var rows := RowsToLock(req);
    if rows != [] {
      var tail := Present(accounts, rows[1..]);
      assert |rows| == 1 ==> rows[1..] == [];
      if |rows| == 2 {
        assert rows[1..] == [rows[1]] && [rows[1]][1..] == [];
        assert Present(accounts, []) == [];
        assert tail == (if rows[1] in accounts then [rows[1]] else []) + [];
      }
    }
  }

  /** What the next statement does, and that it is what the verdict calls for. */
  ghost predicate OnCourse(s0: State, q: Proc, m: Move)
    requires Posts(q.req)
  {
    match m
    case Wait => true
    case CommitPosting(at, currency) =>
      Verdict(s0, q.req) == Posted(s0.tables.nextId) && at == s0.clock && currency == CurrencyOf(s0.accounts, q.req)
    case SetCache(_, _, _) => false
    case _ =>
      if q.pc.Committed? then
        (m.pc.Committed? && m.pc.txn == q.pc.txn) || m.pc == Done(Posted(q.pc.txn))
      else if m.pc.Done? then Verdict(s0, q.req) == m.pc.outcome && !m.pc.outcome.Posted?
      else !m.pc.Committed? && Underway(s0, q.(pc := m.pc))
  }

  lemma BeginIsOnCourse(s0: State, s: State, p: nat, redis: Redis)
    requires Undisturbed(s0, s, p) && (s.procs[p].pc.Start? || s.procs[p].pc.KeyAbsent?)
    ensures OnCourse(s0, s.procs[p], Decide(s, s.procs[p], redis))
  {
  }

  lemma LockingIsOnCourse(s0: State, s: State, p: nat, redis: Redis)
    requires Undisturbed(s0, s, p) && s.procs[p].pc.Locking?
    ensures OnCourse(s0, s.procs[p], Decide(s, s.procs[p], redis))
  {
    var q := s.procs[p];
    PresentCounts(s.accounts, q.req);
    assert Decide(s, q, redis) == SeekRow(s, q, q.pc.want, q.pc.found);
  }

  lemma DecideIsOnCourse(s0: State, s: State, p: nat, redis: Redis)
    requires Undisturbed(s0, s, p) && !s.procs[p].pc.Done?
    ensures OnCourse(s0, s.procs[p], Decide(s, s.procs[p], redis))
  {
    if s.procs[p].pc.Start? || s.procs[p].pc.KeyAbsent? { BeginIsOnCourse(s0, s, p, redis); }
    else if s.procs[p].pc.Locking? { LockingIsOnCourse(s0, s, p, redis); }
    else { PostingIsOnCourse(s0, s, p, redis); }
  }

  lemma InsertingIsOnCourse(s0: State, s: State, p: nat, redis: Redis)
    requires Undisturbed(s0, s, p)
    requires s.procs[p].pc.Cleared? || s.procs[p].pc.Stamped? || s.procs[p].pc.Inserted? || s.procs[p].pc.Committed?
    ensures OnCourse(s0, s.procs[p], Decide(s, s.procs[p], redis))
  {
  }

  lemma PostingIsOnCourse(s0: State, s: State, p: nat, redis: Redis)
    requires Undisturbed(s0, s, p)
    requires !s.procs[p].pc.Done? && !s.procs[p].pc.Start? && !s.procs[p].pc.KeyAbsent? && !s.procs[p].pc.Locking?
    ensures OnCourse(s0, s.procs[p], Decide(s, s.procs[p], redis))
  {
    var pc := s.procs[p].pc;
    if pc.Cleared? || pc.Stamped? || pc.Inserted? || pc.Committed? { InsertingIsOnCourse(s0, s, p, redis); }
  }

  lemma SoloStep(s0: State, s: State, p: nat, redis: Redis)
    requires Undisturbed(s0, s, p)
    ensures Undisturbed(s0, Step(s, Run(p, redis)), p)
  {
    var m := MoveOf(s, p, redis);
    DecideTyped(s, s.procs[p], redis);
    if !s.procs[p].pc.Done? {
      DecideIsOnCourse(s0, s, p, redis);
      SoloApply(s0, s, p, m);
    }
  }

  lemma SoloApply(s0: State, s: State, p: nat, m: Move)
    requires Undisturbed(s0, s, p) && !s.procs[p].pc.Done? && OnCourse(s0, s.procs[p], m) && TypedMove(s.procs[p], m)
    requires m.CommitPosting? ==> s.procs[p].pc.Inserted?
    ensures Undisturbed(s0, Apply(s, p, m), p)
  {
    var s' := Apply(s, p, m);
    if m.CommitPosting? {
      assert s'.tables == Post(s0.c, s0.tables, s0.procs[p].req, m.currency, s0.clock, p);
    }
  }

  /** A call left to itself, whatever Redis does, ends as the service methods say it must. */
  lemma {:induction false} SoloRun(s0: State, p: nat, redis: seq<Redis>)
    requires p < |s0.procs| && Posts(s0.procs[p].req) && s0.procs[p].pc == Start
    ensures var s := Exec(s0, Alone(p, redis));
      && Undisturbed(s0, s, p)
      && (s.procs[p].pc.Done? ==>
            s.procs[p].pc.outcome == Verdict(s0, s0.procs[p].req) && TablesAfter(s0, s, p, s0.procs[p].req))
  {
    if redis != [] {
      var n := |redis| - 1;
      SoloRun(s0, p, redis[..n]);
      SoloStep(s0, Exec(s0, Alone(p, redis[..n])), p, redis[n]);
      AloneOneMore(s0, p, redis);
    }
  }

  // ---------------------------------------------------------------- and it does end

  ghost predicate NobodyElseHolds(s: State, p: nat) {
    (forall a :: a in s.locks ==> s.locks[a] == p) && (forall k :: k in s.keys ==> s.keys[k] == p)
  }

  lemma NeverBlockedByItself(s: State, p: nat)
    requires LockInv(s) && NobodyElseHolds(s, p)
    ensures !Blocked(s, p)
  {
    if Blocked(s, p) { WaitingClimbs(s, p, p); }
  }

  lemma HoldsOnlyItsOwn(s: State, p: nat, m: Move)
    requires p < |s.procs| && NobodyElseHolds(s, p) && (m.CommitPosting? ==> Posts(s.procs[p].req))
    ensures NobodyElseHolds(Apply(s, p, m), p)
  {
  }

  lemma SoloProgress(s: State, p: nat)
    requires Typed(s) && LockInv(s) && NobodyElseHolds(s, p) && p < |s.procs| && !s.procs[p].pc.Done?
    ensures WorkLeft(Step(s, Run(p, Works))) < WorkLeft(s)
  {
    NeverBlockedByItself(s, p);
    StuckMeansBlocked(s, p, Works);
    EveryMoveIsProgress(s, s.procs[p], Works);
    DecideTyped(s, s.procs[p], Works);
    ApplyIsProgress(s, p, MoveOf(s, p, Works));
  }

  lemma SoloFinishes(s0: State, s: State, p: nat) returns (actions: seq<Action>)
    requires Undisturbed(s0, s, p) && Typed(s) && LockInv(s) && NobodyElseHolds(s, p)
    ensures OnlyCall(actions, p)
    ensures var s' := Exec(s, actions);
      Undisturbed(s0, s', p) && s'.procs[p].pc.Done? && Typed(s') && LockInv(s') && NobodyElseHolds(s', p)
    decreases WorkLeft(s)
  {
    actions := [];
    if !s.procs[p].pc.Done? {
      var a := Run(p, Works);
      SoloProgress(s, p);
      DecideTyped(s, s.procs[p], Works);
      SoloStep(s0, s, p, Works);
      TypedStep(s, a);
      LockInvStep(s, a);
      HoldsOnlyItsOwn(s, p, MoveOf(s, p, Works));
      var rest := SoloFinishes(s0, Step(s, a), p);
      actions := [a] + rest;
      OneStep(s, a);
      ExecConcat(s, [a], rest);
    }
  }

  // ---------------------------------------------------------------- posting alone

  lemma PostedBalance(s0: State, s: State, p: nat, x: AccountId)
    requires Undisturbed(s0, s, p) && s.procs[p].pc.Done? && Verdict(s0, s0.procs[p].req).Posted?
    requires Joined(s0.tables.txns, s0.tables.entries) && s0.tables.nextId !in s0.tables.txns
    ensures Balance(s.tables.entries, x) == Balance(s0.tables.entries, x) + Delta(s0.c, s0.procs[p].req, x)
  {
    var req := s0.procs[p].req;
    var currency := CurrencyOf(s0.accounts, req);
    PostMovesMoney(s0.c, s0.tables, req, currency, s0.clock, p, x, 0);
  }

  /** Nothing is held and the tables are in order. */
  ghost predicate Calm(s: State) {
    && Typed(s) && LockInv(s) && s.locks == map[] && s.keys == map[]
    && InOrder(s.tables)
  }

  ghost predicate InOrder(t: Tables) {
    Joined(t.txns, t.entries) && forall id :: id in t.txns ==> id < t.nextId
  }

  /** A finished call holds nothing. */
  lemma NothingHeld(s: State, p: nat)
    requires LockInv(s) && NobodyElseHolds(s, p) && p < |s.procs| && s.procs[p].pc.Done?
    ensures s.locks == map[] && s.keys == map[]
  {
  }

  /** Call p has posted, alone, and is over. */
  ghost predicate PostedAlone(s: State, s': State, p: nat) {
    && p < |s.procs| == |s'.procs| && Posts(s.procs[p].req)
    && s'.c == s.c && s'.accounts == s.accounts && s'.procs == s.procs[p := s'.procs[p]]
    && s'.procs[p].pc.Done? && s'.procs[p].req == s.procs[p].req
    && s'.tables == Post(s.c, s.tables, s.procs[p].req, CurrencyOf(s.accounts, s.procs[p].req), s.clock, p)
    && forall x: AccountId ::
         Balance(s'.tables.entries, x) == Balance(s.tables.entries, x) + Delta(s.c, s.procs[p].req, x)
  }

  lemma HasPosted(s: State, s': State, p: nat)
    requires Calm(s) && Undisturbed(s, s', p) && s'.procs[p].pc.Done? && Verdict(s, s.procs[p].req).Posted?
    ensures PostedAlone(s, s', p) && InOrder(s'.tables)
  {
    forall x: AccountId
      ensures Balance(s'.tables.entries, x) == Balance(s.tables.entries, x) + Delta(s.c, s.procs[p].req, x) {
      PostedBalance(s, s', p, x);
    }
  }

  lemma PostAlone(s: State, p: nat) returns (actions: seq<Action>)
    requires Calm(s) && p < |s.procs| && s.procs[p].pc == Start && Posts(s.procs[p].req)
    requires Verdict(s, s.procs[p].req).Posted?
    ensures OnlyCall(actions, p)
    ensures PostedAlone(s, Exec(s, actions), p) && Calm(Exec(s, actions))
  {
    actions := SoloFinishes(s, s, p);
    NothingHeld(Exec(s, actions), p);
    HasPosted(s, Exec(s, actions), p);
  }
}
