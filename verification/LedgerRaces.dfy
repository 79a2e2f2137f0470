/**
 * Two calls with one idempotency key, the second past the fast check when the first commits:
 * what the second answers, run alone or among others. It is replayed only if rows and funds
 * would still allow the transfer; the funds check comes before the keyed insert.
 */
module LedgerRaces {
  import opened Prelude
  import opened LedgerTables
  import opened LedgerMachine
  import opened LedgerLocks
  import opened LedgerReplay
  import opened LedgerRefinement
  import opened LedgerService
  import opened LedgerTheorems

  // ---------------------------------------------------------------- run alone

  /**
   * What a transfer deserves that passed the fast check before another call committed its key:
   * the checks on rows and funds come first, and only the keyed insert finds the winner.
   */
  ghost function LateVerdict(s: State, req: Request): Outcome
    requires req.Transfer? && KeyTaken(s.tables.txns, req.key)
  {
    match Refusal(s.c, s.accounts, s.tables.entries, req)
    case Some(reason) => Failed(reason)
    case None => Verdict(s, req)
  }

  /** The racer's progress in tables nobody else writes meanwhile. */
  ghost predicate Late(s0: State, s: State, p: nat) {
    && p < |s.procs| && p < |s0.procs| && s.procs[p].req == s0.procs[p].req && s.procs[p].req.Transfer?
    && TypedPc(s.procs[p]) && KeyTaken(s0.tables.txns, s.procs[p].req.key)
    && s.c == s0.c && s.accounts == s0.accounts && s.tables == s0.tables
    && LatePc(s0, s.procs[p])
  }

  ghost predicate LatePc(s0: State, q: Proc)
    requires q.req.Transfer? && KeyTaken(s0.tables.txns, q.req.key)
  {
    match q.pc
    case KeyAbsent => true
    case Locking(_, found) => q.req.source != q.req.destination && found == |Present(s0.accounts, RowsToLock(q.req))|
    case Locked => RowsAccepted(s0, q.req)
    case Cleared(_) => Refusal(s0.c, s0.accounts, s0.tables.entries, q.req) == None
    case Stamped(_, _) => Refusal(s0.c, s0.accounts, s0.tables.entries, q.req) == None
    case Violated => Refusal(s0.c, s0.accounts, s0.tables.entries, q.req) == None
    case Done(outcome) => outcome == LateVerdict(s0, q.req)
    case _ => false
  }

  lemma LateLocking(s0: State, s: State, p: nat)
    requires Late(s0, s, p) && (s.procs[p].pc.KeyAbsent? || s.procs[p].pc.Locking?)
    ensures var m := Decide(s, s.procs[p], Works);
      !m.CommitPosting? && (!m.Wait? ==> LatePc(s0, s.procs[p].(pc := m.pc)))
  {
    PresentCounts(s.accounts, s.procs[p].req);
  }

  lemma LateMove(s0: State, s: State, p: nat, redis: Redis)
    requires Late(s0, s, p) && !s.procs[p].pc.Done?
    ensures var m := Decide(s, s.procs[p], redis);
      !m.CommitPosting? && (!m.Wait? ==> LatePc(s0, s.procs[p].(pc := m.pc)))
  {
    if s.procs[p].pc.KeyAbsent? || s.procs[p].pc.Locking? { LateLocking(s0, s, p); }
  }

  lemma LateApply(s0: State, s: State, p: nat, m: Move)
    requires Late(s0, s, p) && !m.CommitPosting?
    requires !m.Wait? ==> LatePc(s0, s.procs[p].(pc := m.pc)) && TypedPc(s.procs[p].(pc := m.pc))
    ensures Late(s0, Apply(s, p, m), p)
  {
  }

  lemma LateStep(s0: State, s: State, p: nat, redis: Redis)
    requires Late(s0, s, p)
    ensures Late(s0, Step(s, Run(p, redis)), p)
  {
    if !s.procs[p].pc.Done? {
      DecideTyped(s, s.procs[p], redis);
      LateMove(s0, s, p, redis);
      LateApply(s0, s, p, MoveOf(s, p, redis));
    }
  }

  lemma LateAndFree(s0: State, s: State, p: nat)
    requires Late(s0, s, p) && Typed(s) && LockInv(s) && NobodyElseHolds(s, p)
    ensures var s' := Step(s, Run(p, Works));
      Late(s0, s', p) && Typed(s') && LockInv(s') && NobodyElseHolds(s', p)
  {
    LateStep(s0, s, p, Works);
    TypedStep(s, Run(p, Works));
    LockInvStep(s, Run(p, Works));
    DecideTyped(s, s.procs[p], Works);
    HoldsOnlyItsOwn(s, p, MoveOf(s, p, Works));
  }

  /** Left to itself, the racer does finish. */
  lemma LateFinishes(s0: State, s: State, p: nat) returns (actions: seq<Action>)
    requires Late(s0, s, p) && Typed(s) && LockInv(s) && NobodyElseHolds(s, p)
    ensures OnlyCall(actions, p) && Exec(s, actions).tables == s.tables
    ensures p < |Exec(s, actions).procs| && Exec(s, actions).procs[p].pc == Done(LateVerdict(s0, s0.procs[p].req))
    decreases WorkLeft(s)
  {
    actions := [];
    if !s.procs[p].pc.Done? {
      var a := Run(p, Works);
      SoloProgress(s, p);
      LateAndFree(s0, s, p);
      var rest := LateFinishes(s0, Step(s, a), p);
      actions := [a] + rest;
      OneStep(s, a);
      ExecConcat(s, [a], rest);
    }
  }

  lemma {:induction false} LateRun(s: State, p: nat, redis: seq<Redis>)
    requires Late(s, s, p)
    ensures Late(s, Exec(s, Alone(p, redis)), p)
  {
    if redis != [] {
      var n := |redis| - 1;
      LateRun(s, p, redis[..n]);
      LateStep(s, Exec(s, Alone(p, redis[..n])), p, redis[n]);
      AloneOneMore(s, p, redis);
    }
  }

  /**
   * A racer repeating a committed request gets the replay a later caller gets exactly when the
   * rows and the balance the winner left would still allow the transfer a second time. This is
   * so however often it is scheduled and whatever Redis does.
   */
  lemma RacerIsReplayedIff(s: State, p: nat, id: nat, redis: seq<Redis>)
    requires Typed(s) && p < |s.procs| && s.procs[p].req.Transfer? && s.procs[p].pc == KeyAbsent
    requires Verdict(s, s.procs[p].req) == Replayed(id)
    ensures var s' := Exec(s, Alone(p, redis));
      && p < |s'.procs|
      && (s'.procs[p].pc.Done? ==>
            (s'.procs[p].pc.outcome == Replayed(id) <==>
             Refusal(s.c, s.accounts, s.tables.entries, s.procs[p].req) == None))
  {
    LateRun(s, p, redis);
  }

  // ---------------------------------------------------------------- among other calls

  /** The committed transaction that call p repeats. */
  ghost predicate Repeats(s: State, p: nat, id: nat) {
    && p < |s.procs| && s.procs[p].req.Transfer? && id in s.tables.txns
    && s.tables.txns[id].key == Some(s.procs[p].req.key)
    && s.tables.txns[id].requestHash == Some(HashOf(s.c, s.procs[p].req))
  }

  /** Past the funds check: only the insert, the violation and the replay lie ahead. */
  predicate PastFunds(pc: Pc, id: nat) {
    pc.Cleared? || pc.Stamped? || pc.Violated? || pc == Done(Replayed(id)) || pc == Done(Crashed)
  }

  lemma RepeatsStep(s: State, a: Action, p: nat, id: nat)
    requires Sound(s) && Repeats(s, p, id)
    ensures Repeats(Step(s, a), p, id)
  {
    TypedStep(s, a);
    TxnsAreKept(s, a, id);
  }

  lemma PastFundsMove(s: State, p: nat, id: nat, redis: Redis)
    requires Typed(s) && KeysUnique(s.tables.txns) && Repeats(s, p, id) && PastFunds(s.procs[p].pc, id)
    ensures var m := MoveOf(s, p, redis);
      !m.CommitPosting? && (!m.Wait? ==> PastFunds(m.pc, id))
  {
  }

  lemma PastFundsStep(s: State, a: Action, p: nat, id: nat)
    requires Typed(s) && KeysUnique(s.tables.txns) && Repeats(s, p, id) && PastFunds(s.procs[p].pc, id)
    ensures p < |Step(s, a).procs| && PastFunds(Step(s, a).procs[p].pc, id)
  {
    if LeavesAlone(a, p) {
      OtherStep(s, a, p);
    } else if a.Run? {
      PastFundsMove(s, p, id, a.redis);
    }
  }

  lemma {:induction false} PastFundsRun(s: State, actions: seq<Action>, p: nat, id: nat)
    requires Sound(s) && Repeats(s, p, id) && PastFunds(s.procs[p].pc, id)
    ensures var s' := Exec(s, actions);
      Sound(s') && Repeats(s', p, id) && PastFunds(s'.procs[p].pc, id)
  {
    if actions != [] {
      var init, last := actions[..|actions| - 1], actions[|actions| - 1];
      PastFundsRun(s, init, p, id);
      SoundStep(Exec(s, init), last);
      RepeatsStep(Exec(s, init), last, p, id);
      PastFundsStep(Exec(s, init), last, p, id);
    }
  }

  lemma {:induction false} RepeatsRun(s: State, actions: seq<Action>, p: nat, id: nat)
    requires Sound(s) && Repeats(s, p, id)
    ensures Sound(Exec(s, actions)) && Repeats(Exec(s, actions), p, id)
  {
    if actions != [] {
      var init, last := actions[..|actions| - 1], actions[|actions| - 1];
      RepeatsRun(s, init, p, id);
      SoundStep(Exec(s, init), last);
      RepeatsStep(Exec(s, init), last, p, id);
    }
  }

  /** The funds read itself: the branch that decides. */
  lemma FundsReadDecides(s: State, p: nat, redis: Redis)
    requires p < |s.procs| && s.procs[p].req.Transfer? && s.procs[p].pc.Locked?
    ensures var pc, req := Step(s, Run(p, redis)).procs[p].pc, s.procs[p].req;
      if Balance(s.tables.entries, req.source) as real < Value(s.c, req) then pc == Done(Failed(InsufficientFunds))
      else pc == Cleared(s.clock)
  {
  }

  lemma {:induction false} DoneForGood(s: State, actions: seq<Action>, p: nat)
    requires Typed(s) && p < |s.procs| && s.procs[p].pc.Done?
    ensures Typed(Exec(s, actions)) && |Exec(s, actions).procs| == |s.procs| && Exec(s, actions).procs[p] == s.procs[p]
  {
    if actions != [] {
      var init, last := actions[..|actions| - 1], actions[|actions| - 1];
      DoneForGood(s, init, p);
      TypedStep(Exec(s, init), last);
      if LeavesAlone(last, p) { OtherStep(Exec(s, init), last, p); }
    }
  }

  ghost function AnswerAtRead(s: State, p: nat, id: nat): Outcome
    requires p < |s.procs| && s.procs[p].req.Transfer?
  {
    if Balance(s.tables.entries, s.procs[p].req.source) as real < Value(s.c, s.procs[p].req)
    then Failed(InsufficientFunds) else Replayed(id)
  }

  /** The answer is given, or on its way. */
  ghost predicate Answering(s: State, p: nat, answer: Outcome, id: nat) {
    && p < |s.procs|
    && if answer == Replayed(id) then PastFunds(s.procs[p].pc, id) else s.procs[p].pc == Done(answer)
  }

  lemma RacerReadsFunds(s: State, p: nat, redis: Redis, id: nat)
    requires Sound(s) && Repeats(s, p, id) && s.procs[p].pc.Locked?
    ensures var s' := Step(s, Run(p, redis));
      Sound(s') && Repeats(s', p, id) && Answering(s', p, AnswerAtRead(s, p, id), id)
  {
    FundsReadDecides(s, p, redis);
    SoundStep(s, Run(p, redis));
    RepeatsStep(s, Run(p, redis), p, id);
  }

  lemma AnswerStands(s: State, after: seq<Action>, p: nat, answer: Outcome, id: nat)
    requires Sound(s) && Repeats(s, p, id) && Answering(s, p, answer, id)
    ensures Answering(Exec(s, after), p, answer, id)
  {
    if answer == Replayed(id) { PastFundsRun(s, after, p, id); } else { DoneForGood(s, after, p); }
  }

  /** The racer holds its rows and has not read its balance; its key is committed. */
  ghost predicate AboutToRead(s: State, p: nat, id: nat) {
    Sound(s) && Repeats(s, p, id) && s.procs[p].pc.Locked?
  }

  lemma OthersRunFirst(s: State, between: seq<Action>, p: nat, id: nat)
    requires AboutToRead(s, p, id) && WithoutCall(between, p)
    ensures AboutToRead(Exec(s, between), p, id)
  {
    OthersLeaveItAlone(s, between, p);
    RepeatsRun(s, between, p, id);
  }

  lemma ThenItAnswers(read: State, redis: Redis, after: seq<Action>, p: nat, id: nat)
    requires AboutToRead(read, p, id)
    ensures EndsWith(Exec(Step(read, Run(p, redis)), after), p, AnswerAtRead(read, p, id))
  {
    RacerReadsFunds(read, p, redis, id);
    AnswerStands(Step(read, Run(p, redis)), after, p, AnswerAtRead(read, p, id), id);
  }

  /** If call p has ended, other than by a crash, it is with this answer. */
  ghost predicate EndsWith(s: State, p: nat, answer: Outcome) {
    p < |s.procs| && (s.procs[p].pc.Done? && s.procs[p].pc.outcome != Crashed ==> s.procs[p].pc.outcome == answer)
  }

  /**
   * The racer among any other calls: once it holds its rows, and its key is committed, its answer
   * is settled by the balance at the moment it reads it, whatever happens before and after. If it
   * ends at all, short of a crash, it ends with that answer.
   */
  lemma RacerUnderInterleaving(s: State, between: seq<Action>, redis: Redis, after: seq<Action>, p: nat, id: nat)
    requires AboutToRead(s, p, id) && WithoutCall(between, p)
    ensures AboutToRead(Exec(s, between), p, id)
    ensures EndsWith(Exec(Step(Exec(s, between), Run(p, redis)), after), p, AnswerAtRead(Exec(s, between), p, id))
  {
    OthersRunFirst(s, between, p, id);
    ThenItAnswers(Exec(s, between), redis, after, p, id);
  }

  // ---------------------------------------------------------------- in any schedule at all

  /** Past the fast check and not past the funds check. */
  predicate Undecided(pc: Pc) { pc.KeyAbsent? || pc.Locking? || pc.Locked? }

  /** The racer's next statement settles its answer: the validation, the check of the locked rows, or the funds read. */
  ghost predicate DecidesHere(s: State, p: nat, answer: Outcome, id: nat) {
    && p < |s.procs| && s.procs[p].req.Transfer?
    && var req, pc := s.procs[p].req, s.procs[p].pc;
       || (pc.KeyAbsent? && req.source == req.destination && answer == Failed(SameAccount))
       || (pc.Locking? && pc.want == [] && RowProblem(s.accounts, req, pc.found).Some?
           && answer == Failed(RowProblem(s.accounts, req, pc.found).value))
       || (pc.Locked? && answer == AnswerAtRead(s, p, id))
  }

  /** Before it, the racer only takes locks. */
  lemma UndecidedMove(s: State, p: nat, redis: Redis, id: nat)
    requires Typed(s) && p < |s.procs| && s.procs[p].req.Transfer? && Undecided(s.procs[p].pc)
    ensures var m := MoveOf(s, p, redis);
      && !m.CommitPosting?
      && (m.Wait? || Undecided(m.pc) || (m.pc.Cleared? && DecidesHere(s, p, Replayed(id), id))
          || (m.pc.Done? && m.pc.outcome != Replayed(id) && DecidesHere(s, p, m.pc.outcome, id)))
  {
  }

  lemma UndecidedStep(s: State, a: Action, p: nat, id: nat) returns (answer: Outcome)
    requires Typed(s) && p < |s.procs| && s.procs[p].req.Transfer? && Undecided(s.procs[p].pc)
    ensures var s' := Step(s, a);
      && p < |s'.procs|
      && (|| Undecided(s'.procs[p].pc) || s'.procs[p].pc == Done(Crashed)
          || (a.Run? && a.p == p && DecidesHere(s, p, answer, id) && Answering(s', p, answer, id)))
  {
    answer := Crashed;
    if LeavesAlone(a, p) {
      OtherStep(s, a, p);
    } else if a.Run? {
      UndecidedMove(s, p, a.redis, id);
      var m := MoveOf(s, p, a.redis);
      if !m.Wait? { answer := if m.pc.Done? then m.pc.outcome else Replayed(id); }
    }
  }

  lemma AnsweringStep(s: State, a: Action, p: nat, answer: Outcome, id: nat)
    requires Typed(s) && KeysUnique(s.tables.txns) && Repeats(s, p, id) && Answering(s, p, answer, id)
    ensures Answering(Step(s, a), p, answer, id)
  {
    if answer == Replayed(id) { PastFundsStep(s, a, p, id); }
    else if LeavesAlone(a, p) { OtherStep(s, a, p); }
  }

  /** Step k of the schedule is the racer's own, and it settles the answer. */
  ghost predicate DecidedAt(s: State, actions: seq<Action>, k: nat, p: nat, answer: Outcome, id: nat) {
    && k < |actions| && actions[k].Run? && actions[k].p == p
    && DecidesHere(Exec(s, actions[..k]), p, answer, id)
  }

  lemma DecidedEarlier(s: State, actions: seq<Action>, k: nat, p: nat, answer: Outcome, id: nat)
    requires actions != [] && DecidedAt(s, actions[..|actions| - 1], k, p, answer, id)
    ensures DecidedAt(s, actions, k, p, answer, id)
  {
    assert actions[..|actions| - 1][..k] == actions[..k];
  }

  /** Where the racer stands after the schedule. */
  ghost predicate RacerState(s: State, actions: seq<Action>, p: nat, id: nat) {
    var end := Exec(s, actions);
    && p < |end.procs|
    && (|| Undecided(end.procs[p].pc) || end.procs[p].pc == Done(Crashed)
        || exists k: nat, answer :: DecidedAt(s, actions, k, p, answer, id) && Answering(end, p, answer, id))
  }

  /**
   * The racer in any schedule, from the fast check on, its key being committed: until it decides
   * it only takes locks; then the validation, the check of its rows under their locks, or the
   * balance it reads, at that very step, settles for good whether it ends with the row problem,
   * "Insufficient funds" or the replay. Only a crash ends it otherwise.
   */
  lemma {:induction false} RacerInAnySchedule(s: State, actions: seq<Action>, p: nat, id: nat)
    requires Sound(s) && Repeats(s, p, id) && Undecided(s.procs[p].pc)
    ensures RacerState(s, actions, p, id)
  {
    if actions != [] {
      var init, last := actions[..|actions| - 1], actions[|actions| - 1];
      RacerInAnySchedule(s, init, p, id);
      RepeatsRun(s, init, p, id);
      SoundFacts(Exec(s, init));
      RacerOneMore(s, actions, p, id);
    }
  }

  lemma RacerOneMore(s: State, actions: seq<Action>, p: nat, id: nat)
    requires actions != [] && RacerState(s, actions[..|actions| - 1], p, id)
    requires var mid := Exec(s, actions[..|actions| - 1]);
      Typed(mid) && KeysUnique(mid.tables.txns) && Repeats(mid, p, id)
    ensures RacerState(s, actions, p, id)
  {
    var n := |actions| - 1;
    var mid := Exec(s, actions[..n]);
    if Undecided(mid.procs[p].pc) {
      var answer := UndecidedStep(mid, actions[n], p, id);
      if actions[n].Run? && actions[n].p == p
        && DecidesHere(mid, p, answer, id) && Answering(Step(mid, actions[n]), p, answer, id) {
        assert DecidedAt(s, actions, n, p, answer, id);
      }
    } else if mid.procs[p].pc == Done(Crashed) {
      if LeavesAlone(actions[n], p) { OtherStep(mid, actions[n], p); }
    } else {
      var k: nat, answer :| DecidedAt(s, actions[..n], k, p, answer, id) && Answering(mid, p, answer, id);
      AnsweringStep(mid, actions[n], p, answer, id);
      DecidedEarlier(s, actions, k, p, answer, id);
    }
  }
}
