/**
 * Who holds which row lock and which idempotency-key slot, in every reachable state; from it,
 * freedom from deadlock and termination of any set of concurrent calls.
 */
module LedgerLocks {
  import opened Prelude
  import opened LedgerTables
  import opened LedgerMachine

  // ---------------------------------------------------------------- the lock invariant

  predicate FullyLocked(pc: Pc) {
    pc.Locked? || pc.Funded? || pc.Cleared? || pc.Stamped? || pc.Inserted?
  }

  ghost predicate Ascending(rows: seq<AccountId>) {
    forall i, j :: 0 <= i < j < |rows| ==> rows[i] < rows[j]
  }

  /** Rows q can own: while locking, only ids below every one it still wants. */
  ghost predicate MayHold(q: Proc, a: AccountId) {
    && a in RowsToLock(q.req)
    && (FullyLocked(q.pc) || (q.pc.Locking? && forall w :: w in q.pc.want ==> a < w))
  }

  /** Rows q certainly owns. */
  predicate MustHold(q: Proc, a: AccountId) {
    && a in RowsToLock(q.req)
    && (FullyLocked(q.pc) || (q.pc.Locking? && q.pc.found == |RowsToLock(q.req)| && a !in q.pc.want))
  }

  ghost predicate WantsInOrder(q: Proc) {
    q.pc.Locking? ==>
      && Ascending(q.pc.want)
      && (forall w :: w in q.pc.want ==> w in RowsToLock(q.req))
      && (q.req.Transfer? ==> q.req.source != q.req.destination)
  }

  predicate HoldsKey(q: Proc, key: string) {
    q.pc.Inserted? && q.req.Transfer? && q.req.key == key
  }

  ghost predicate RowsOwned(s: State) {
    forall a :: a in s.locks ==> s.locks[a] < |s.procs| && MayHold(s.procs[s.locks[a]], a)
  }

  ghost predicate KeysOwned(s: State) {
    forall k :: k in s.keys ==> s.keys[k] < |s.procs| && HoldsKey(s.procs[s.keys[k]], k)
  }

  ghost predicate RowsSecured(s: State) {
    forall p, a :: 0 <= p < |s.procs| && MustHold(s.procs[p], a) ==> a in s.locks && s.locks[a] == p
  }

  ghost predicate KeysSecured(s: State) {
    forall p, k :: 0 <= p < |s.procs| && HoldsKey(s.procs[p], k) ==> k in s.keys && s.keys[k] == p
  }

  ghost predicate Ordered(s: State) {
    forall p :: 0 <= p < |s.procs| ==> WantsInOrder(s.procs[p])
  }

  ghost predicate LockInv(s: State) {
    RowsOwned(s) && KeysOwned(s) && RowsSecured(s) && KeysSecured(s) && Ordered(s)
  }

  lemma OneHolder(s: State, p: nat, q: nat, a: AccountId)
    requires RowsSecured(s) && p < |s.procs| && q < |s.procs| && MustHold(s.procs[p], a) && MustHold(s.procs[q], a)
    ensures p == q
  {
    assert s.locks[a] == p;
    assert s.locks[a] == q;
  }

  lemma PresentRows(accounts: map<AccountId, Account>, req: Request)
    requires req.Withdrawal? || (req.Transfer? && req.source != req.destination)
    ensures var rows, r := RowsToLock(req), Present(accounts, RowsToLock(req));
      && Ascending(r)
      && (forall a :: a in r ==> a in rows)
      && (|r| == |rows| ==> r == rows)
  {
    var rows := RowsToLock(req);
    var tail := Present(accounts, rows[1..]);
    if req.Transfer? {
      assert rows[1..] == [rows[1]] && [rows[1]][1..] == [];
      assert Present(accounts, []) == [];
      assert tail == (if rows[1] in accounts then [rows[1]] else []) + [];
    }
  }

  /** What a move means for the locks of its own call. */
  ghost predicate LockMove(s: State, q: Proc, m: Move) {
    match m
    case LockRow(row, pc) =>
      && row !in s.locks && q.pc.Locking? && q.pc.want != [] && row == q.pc.want[0]
      && pc == Locking(q.pc.want[1..], q.pc.found)
    case HoldKey(key, pc) =>
      && key !in s.keys && pc.Inserted? && q.req.Transfer? && key == q.req.key && q.pc.Stamped?
    case Rollback(pc) => pc.Done? || pc.Violated?
    case Goto(pc) =>
      || (!FullyLocked(pc) && !pc.Locking? && !FullyLocked(q.pc) && !q.pc.Locking?)
      || (pc.Locking? && !FullyLocked(q.pc) && !q.pc.Locking? && WantsInOrder(Proc(q.req, pc))
          && (pc.found == |RowsToLock(q.req)| ==> pc.want == RowsToLock(q.req)))
      || (pc.Locked? && q.pc.Locking? && q.pc.want == [] && q.pc.found == |RowsToLock(q.req)|)
      || (FullyLocked(pc) && (FullyLocked(q.pc) || RowsToLock(q.req) == []) && !q.pc.Inserted?
          && (pc.Inserted? ==> !q.req.Transfer?))
    case SetCache(_, _, pc) => RowsToLock(q.req) == [] && !pc.Inserted? && !pc.Locking?
    case DropCache(_, pc) => !FullyLocked(q.pc) && !q.pc.Locking? && !FullyLocked(pc) && !pc.Locking?
    case _ => true
  }

  lemma SelectIsLockMove(s: State, q: Proc)
    requires TypedPc(q) && (q.pc.KeyAbsent? || (q.pc.Start? && q.req.Withdrawal?))
    ensures LockMove(s, q, SelectForUpdate(s, q))
  {
    if q.req.Transfer? && q.req.source == q.req.destination {
    } else {
      PresentRows(s.accounts, q.req);
    }
  }

  lemma DecideIsLockMove(s: State, q: Proc, redis: Redis)
    requires TypedPc(q) && WantsInOrder(q)
    ensures LockMove(s, q, Decide(s, q, redis))
  {
    if q.pc.KeyAbsent? || (q.pc.Start? && q.req.Withdrawal?) {
      SelectIsLockMove(s, q);
    }
  }

  lemma AscendingTail(rows: seq<AccountId>)
    requires Ascending(rows) && rows != []
    ensures Ascending(rows[1..]) && forall w :: w in rows[1..] ==> rows[0] < w
    ensures forall w :: w in rows <==> w == rows[0] || w in rows[1..]
  {
    assert rows == [rows[0]] + rows[1..];
    forall w | w in rows[1..] ensures rows[0] < w {
      var i :| 0 <= i < |rows| - 1 && rows[1..][i] == w;
      assert rows[i + 1] == w;
    }
  }

  /** Taking the lowest wanted row: what is still wanted lies above it and above the rows held before. */
  lemma TakingARow(q: Proc, row: AccountId)
    requires q.pc.Locking? && q.pc.want != [] && row == q.pc.want[0] && WantsInOrder(q)
    ensures var q' := q.(pc := Locking(q.pc.want[1..], q.pc.found));
      && MayHold(q', row) && WantsInOrder(q')
      && (forall a :: MayHold(q, a) ==> MayHold(q', a))
      && (forall a :: MustHold(q', a) ==> a == row || MustHold(q, a))
  {
    AscendingTail(q.pc.want);
  }

  lemma ApplyKeepsRowsOwned(s: State, p: nat, m: Move)
    requires RowsOwned(s) && Ordered(s) && p < |s.procs| && TypedMove(s.procs[p], m) && LockMove(s, s.procs[p], m)
    ensures RowsOwned(Apply(s, p, m))
  {
    var q, s' := s.procs[p], Apply(s, p, m);
    if m.LockRow? { TakingARow(q, m.row); }
    forall a | a in s'.locks ensures s'.locks[a] < |s'.procs| && MayHold(s'.procs[s'.locks[a]], a) {
      if a in s.locks && s.locks[a] != p {
        assert s'.procs[s.locks[a]] == s.procs[s.locks[a]];
      }
    }
  }

  lemma OwnRowsSecured(s: State, p: nat, m: Move, a: AccountId)
    requires RowsSecured(s) && Ordered(s) && p < |s.procs| && TypedMove(s.procs[p], m) && LockMove(s, s.procs[p], m)
    requires MustHold(Apply(s, p, m).procs[p], a)
    ensures a in Apply(s, p, m).locks && Apply(s, p, m).locks[a] == p
  {
    if m.LockRow? { TakingARow(s.procs[p], m.row); }
    assert MustHold(s.procs[p], a) || (m.LockRow? && m.row == a);
  }

  /** Nobody takes or frees a row another call holds. */
  lemma OthersRowsSecured(s: State, p: nat, m: Move, i: nat, a: AccountId)
    requires RowsSecured(s) && p < |s.procs| && TypedMove(s.procs[p], m) && LockMove(s, s.procs[p], m)
    requires i < |s.procs| && i != p && MustHold(s.procs[i], a)
    ensures a in Apply(s, p, m).locks && Apply(s, p, m).locks[a] == i
  {
  }

  lemma ApplyKeepsRowsSecured(s: State, p: nat, m: Move)
    requires RowsSecured(s) && Ordered(s) && p < |s.procs| && TypedMove(s.procs[p], m) && LockMove(s, s.procs[p], m)
    ensures RowsSecured(Apply(s, p, m))
  {
    var s' := Apply(s, p, m);
    forall i, a | 0 <= i < |s'.procs| && MustHold(s'.procs[i], a) ensures a in s'.locks && s'.locks[a] == i {
      if i == p {
        OwnRowsSecured(s, p, m, a);
      } else {
        ApplyTouchesOne(s, p, m, i);
        OthersRowsSecured(s, p, m, i, a);
      }
    }
  }

  lemma ApplyKeepsKeysOwned(s: State, p: nat, m: Move)
    requires KeysOwned(s) && p < |s.procs| && TypedMove(s.procs[p], m) && LockMove(s, s.procs[p], m)
    ensures KeysOwned(Apply(s, p, m))
  {
    var s' := Apply(s, p, m);
    forall k | k in s'.keys ensures s'.keys[k] < |s'.procs| && HoldsKey(s'.procs[s'.keys[k]], k) {
      if k in s.keys && s.keys[k] != p {
        ApplyTouchesOne(s, p, m, s.keys[k]);
      }
    }
  }

  lemma ApplyKeepsKeysSecured(s: State, p: nat, m: Move)
    requires KeysSecured(s) && p < |s.procs| && TypedMove(s.procs[p], m) && LockMove(s, s.procs[p], m)
    ensures KeysSecured(Apply(s, p, m))
  {
    var s' := Apply(s, p, m);
    forall i, k | 0 <= i < |s'.procs| && HoldsKey(s'.procs[i], k) ensures k in s'.keys && s'.keys[k] == i {
      if i != p {
        ApplyTouchesOne(s, p, m, i);
        assert HoldsKey(s.procs[i], k);
      }
    }
  }

  lemma ApplyKeepsOrder(s: State, p: nat, m: Move)
    requires Ordered(s) && p < |s.procs| && TypedMove(s.procs[p], m) && LockMove(s, s.procs[p], m)
    ensures Ordered(Apply(s, p, m))
  {
    var s' := Apply(s, p, m);
    forall i | 0 <= i < |s'.procs| ensures WantsInOrder(s'.procs[i]) {
      if i != p {
        assert s'.procs[i] == s.procs[i];
      }
    }
  }

  lemma MovesAreLockMoves(s: State, p: nat, m: Move)
    requires p < |s.procs| && TypedPc(s.procs[p]) && WantsInOrder(s.procs[p]) && MayMove(s, p, m)
    ensures LockMove(s, s.procs[p], m)
  {
    if redis :| m == MoveOf(s, p, redis) {
      DecideIsLockMove(s, s.procs[p], redis);
    }
  }

  lemma LockInvStep(s: State, a: Action)
    requires Typed(s) && LockInv(s)
    ensures LockInv(Step(s, a))
  {
    var s' := Step(s, a);
    StepCases(s, a);
    if s'.locks == s.locks && s'.keys == s.keys && s'.procs == s.procs {
    } else {
      var m :| TypedMove(s.procs[a.p], m) && MayMove(s, a.p, m) && s' == Apply(s, a.p, m);
      MovesAreLockMoves(s, a.p, m);
      ApplyKeepsRowsOwned(s, a.p, m);
      ApplyKeepsRowsSecured(s, a.p, m);
      ApplyKeepsKeysOwned(s, a.p, m);
      ApplyKeepsKeysSecured(s, a.p, m);
      ApplyKeepsOrder(s, a.p, m);
    }
  }

  // ---------------------------------------------------------------- deadlock freedom

  predicate WaitsForRow(s: State, p: nat) {
    && p < |s.procs|
    && s.procs[p].pc.Locking? && s.procs[p].pc.want != [] && s.procs[p].pc.want[0] in s.locks
  }

  ghost predicate WaitsForKey(s: State, p: nat) {
    && p < |s.procs|
    && s.procs[p].pc.Stamped? && s.procs[p].req.Transfer?
    && s.procs[p].req.key in s.keys && !KeyTaken(s.tables.txns, s.procs[p].req.key)
  }

  ghost predicate Blocked(s: State, p: nat) {
    WaitsForRow(s, p) || WaitsForKey(s, p)
  }

  ghost predicate WaitsFor(s: State, p: nat, holder: nat) {
    || (WaitsForRow(s, p) && s.locks[s.procs[p].pc.want[0]] == holder)
    || (WaitsForKey(s, p) && s.keys[s.procs[p].req.key] == holder)
  }

  /** The row a call waits for; the key slot ranks above every row, and not waiting above both. */
  ghost function Rank(s: State, p: nat): nat {
    if WaitsForRow(s, p) then s.procs[p].pc.want[0]
    else if WaitsForKey(s, p) then UUID_LIMIT
    else UUID_LIMIT + 1
  }

  /** A call makes no move exactly when it is finished or waits for a lock that is held. */
  lemma StuckMeansBlocked(s: State, p: nat, redis: Redis)
    requires Typed(s) && p < |s.procs|
    ensures MoveOf(s, p, redis).Wait? <==> s.procs[p].pc.Done? || Blocked(s, p)
  {
  }

  /** Row locks are taken in ascending id order and the key slot last, so waiting always points upwards. */
  lemma WaitingClimbs(s: State, p: nat, holder: nat)
    requires RowsOwned(s) && KeysOwned(s) && WaitsFor(s, p, holder)
    ensures holder < |s.procs| && !s.procs[holder].pc.Done? && Rank(s, p) < Rank(s, holder)
  {
    if WaitsForRow(s, p) {
      var row, pc := s.procs[p].pc.want[0], s.procs[holder].pc;
      assert MayHold(s.procs[holder], row) && row < UUID_LIMIT;
      assert pc.Locking? && pc.want != [] ==> pc.want[0] in pc.want;
    } else {
      assert HoldsKey(s.procs[holder], s.procs[p].req.key);
    }
  }

  ghost predicate WaitChain(s: State, chain: seq<nat>) {
    forall i :: 0 <= i < |chain| - 1 ==> WaitsFor(s, chain[i], chain[i + 1])
  }

  lemma {:induction false} RanksClimb(s: State, chain: seq<nat>, n: nat)
    requires RowsOwned(s) && KeysOwned(s) && WaitChain(s, chain) && 0 < n < |chain|
    ensures Rank(s, chain[0]) < Rank(s, chain[n])
  {
    assert WaitsFor(s, chain[n - 1], chain[n - 1 + 1]);
    WaitingClimbs(s, chain[n - 1], chain[n]);
    if n > 1 { RanksClimb(s, chain, n - 1); }
  }

  /** The waits-for relation is acyclic: no chain of waiting calls returns to its start. */
  lemma NoDeadlock(s: State, chain: seq<nat>)
    requires RowsOwned(s) && KeysOwned(s) && WaitChain(s, chain) && |chain| >= 2
    ensures Rank(s, chain[0]) < Rank(s, chain[|chain| - 1])
    ensures chain[0] != chain[|chain| - 1]
  {
    RanksClimb(s, chain, |chain| - 1);
  }

  /** Follow the holders from any unfinished call: the chain ends in a call that can move. */
  lemma SomeoneCanMove(s: State, p: nat) returns (r: nat)
    requires RowsOwned(s) && KeysOwned(s) && p < |s.procs| && !s.procs[p].pc.Done?
    ensures r < |s.procs| && !s.procs[r].pc.Done? && !Blocked(s, r)
    decreases UUID_LIMIT + 1 - Rank(s, p)
  {
    if !Blocked(s, p) {
      r := p;
    } else {
      var holder := if WaitsForRow(s, p) then s.locks[s.procs[p].pc.want[0]] else s.keys[s.procs[p].req.key];
      WaitingClimbs(s, p, holder);
      r := SomeoneCanMove(s, holder);
    }
  }

  // ---------------------------------------------------------------- termination

  /** Statements a call has left at most. */
  function Work(pc: Pc): nat {
    match pc
    case Start => 14
    case KeyAbsent => 13
    case Locking(want, _) => 10 + |want|
    case Locked => 9
    case AccountRead => 9
    case Funded(_) => 8
    case Cleared(_) => 7
    case Stamped(_, _) => 6
    case Inserted(_, _) => 5
    case Committed(_, stale) => 1 + |stale|
    case Violated => 1
    case CacheMissed => 3
    case RowSeen => 2
    case BalanceRead(_) => 1
    case Done(_) => 0
  }

  function WorkLeft(s: State): nat {
    Total(seq(|s.procs|, i requires 0 <= i < |s.procs| => Work(s.procs[i].pc)))
  }

  lemma EveryMoveIsProgress(s: State, q: Proc, redis: Redis)
    requires TypedPc(q)
    ensures var m := Decide(s, q, redis);
      !m.Wait? && !m.CommitPosting? ==> Work(m.pc) < Work(q.pc)
  {
    if q.pc.KeyAbsent? || (q.pc.Start? && q.req.Withdrawal?) {
      assert |RowsToLock(q.req)| <= 2;
      if !(q.req.Transfer? && q.req.source == q.req.destination) {
        PresentRows(s.accounts, q.req);
        PresentShorter(s.accounts, RowsToLock(q.req));
      }
    }
  }

  lemma PresentShorter(accounts: map<AccountId, Account>, rows: seq<AccountId>)
    ensures |Present(accounts, rows)| <= |rows|
  {
  }

  lemma ApplyIsProgress(s: State, p: nat, m: Move)
    requires p < |s.procs| && TypedMove(s.procs[p], m)
    requires !m.Wait? && (!m.CommitPosting? ==> Work(m.pc) < Work(s.procs[p].pc))
    ensures WorkLeft(Apply(s, p, m)) < WorkLeft(s)
  {
    var s' := Apply(s, p, m);
    var w := seq(|s.procs|, i requires 0 <= i < |s.procs| => Work(s.procs[i].pc));
    TotalUpdate(w, p, Work(s'.procs[p].pc));
    assert w[p := Work(s'.procs[p].pc)] == seq(|s'.procs|, i requires 0 <= i < |s'.procs| => Work(s'.procs[i].pc));
  }

  /** A scheduled step either changes nothing or uses up work; clock and account updates add none. */
  lemma StepIsProgress(s: State, a: Action)
    requires Typed(s)
    ensures a.Tick? || a.Admin? ==> Step(s, a).procs == s.procs
    ensures a.Run? || a.Crash? ==> Step(s, a) == s || WorkLeft(Step(s, a)) < WorkLeft(s)
  {
    if a.Run? && a.p < |s.procs| && !MoveOf(s, a.p, a.redis).Wait? {
      EveryMoveIsProgress(s, s.procs[a.p], a.redis);
      DecideTyped(s, s.procs[a.p], a.redis);
      ApplyIsProgress(s, a.p, MoveOf(s, a.p, a.redis));
    } else if a.Crash? && a.p < |s.procs| && !s.procs[a.p].pc.Done? {
      ApplyIsProgress(s, a.p, Rollback(Done(Crashed)));
    }
  }

  /** How many of the actions were a step of some call. */
  ghost function StepsTaken(s: State, actions: seq<Action>): nat {
    if actions == [] then 0
    else
      var before := Exec(s, actions[..|actions| - 1]);
      var last := actions[|actions| - 1];
      StepsTaken(s, actions[..|actions| - 1])
      + if (last.Run? || last.Crash?) && Step(before, last) != before then 1 else 0
  }

  /** No schedule goes on forever: the calls together take at most WorkLeft(s) steps, whatever the interleaving. */
  lemma {:induction false} RunsAreBounded(s: State, actions: seq<Action>)
    requires Typed(s)
    ensures Typed(Exec(s, actions))
    ensures StepsTaken(s, actions) + WorkLeft(Exec(s, actions)) <= WorkLeft(s)
  {
    if actions != [] {
      var init, last := actions[..|actions| - 1], actions[|actions| - 1];
      RunsAreBounded(s, init);
      TypedStep(Exec(s, init), last);
      StepIsProgress(Exec(s, init), last);
    }
  }

  ghost predicate AllFinished(s: State) {
    forall p :: 0 <= p < |s.procs| ==> s.procs[p].pc.Done?
  }

  /** From every state with sound locks the remaining calls can be run to completion, none of them by a crash. */
  lemma EveryoneFinishes(s: State) returns (schedule: seq<Action>)
    requires Typed(s) && LockInv(s)
    ensures Undisrupted(schedule) && AllFinished(Exec(s, schedule))
    decreases WorkLeft(s)
  {
    if AllFinished(s) {
      schedule := [];
    } else {
      var p :| 0 <= p < |s.procs| && !s.procs[p].pc.Done?;
      var r := SomeoneCanMove(s, p);
      var a := Run(r, Works);
      StuckMeansBlocked(s, r, Works);
      EveryMoveIsProgress(s, s.procs[r], Works);
      DecideTyped(s, s.procs[r], Works);
      ApplyIsProgress(s, r, MoveOf(s, r, Works));
      TypedStep(s, a);
      LockInvStep(s, a);
      var rest := EveryoneFinishes(Step(s, a));
      schedule := [a] + rest;
      assert Exec(s, [a]) == Step(Exec(s, [a][..0]), a);
      ExecConcat(s, [a], rest);
    }
  }
}
