/**
 * Idempotent transfers: at most one transaction per key whatever the interleaving, at most one
 * per call, and every call that returns does so with the transaction of its own key and hash.
 */
module LedgerReplay {
  import opened Prelude
  import opened Money
  import opened RequestHash
  import opened LedgerTables
  import opened LedgerMachine
  import opened LedgerLocks
  import opened LedgerBooks

  ghost predicate KeysUnique(txns: map<nat, Txn>) {
    forall i, j :: i in txns && j in txns && txns[i].key.Some? && txns[i].key == txns[j].key ==> i == j
  }

  /** A call that has inserted is the first with its key; one that met a violation has a winner to find. */
  ghost predicate KeyStatus(s: State, q: Proc) {
    && (q.pc.Inserted? && q.req.Transfer? ==> !KeyTaken(s.tables.txns, q.req.key))
    && (q.pc.Violated? && q.req.Transfer? ==> KeyTaken(s.tables.txns, q.req.key))
  }

  ghost predicate AnswerIsRight(s: State, q: Proc) {
    && (q.pc.Done? && q.pc.outcome.Replayed? ==>
          && q.pc.outcome.txn in s.tables.txns && q.req.Transfer?
          && s.tables.txns[q.pc.outcome.txn].key == Some(q.req.key)
          && s.tables.txns[q.pc.outcome.txn].requestHash == Some(HashOf(s.c, q.req)))
    && (q.pc == Done(Failed(KeyUsedForDifferentRequest)) ==>
          q.req.Transfer? && KeyTakenByAnother(s.tables.txns, q.req.key, HashOf(s.c, q.req)))
    && q.pc != Done(Failed(IntegrityErrorRaised))
  }

  /** A committed transaction has the key and the hash of some other request. */
  ghost predicate KeyTakenByAnother(txns: map<nat, Txn>, key: string, hash: string) {
    exists id :: id in txns && txns[id].key == Some(key) && txns[id].requestHash != Some(hash)
  }

  lemma KeyStaysTaken(txns: map<nat, Txn>, id: nat, t: Txn, key: string, hash: string)
    requires id !in txns && KeyTakenByAnother(txns, key, hash)
    ensures KeyTakenByAnother(txns[id := t], key, hash)
  {
    var other :| other in txns && txns[other].key == Some(key) && txns[other].requestHash != Some(hash);
    assert txns[id := t][other] == txns[other];
  }

  /** After its commit a call still remembers the transaction it posted, until it crashes. */
  predicate Remembers(pc: Pc, txn: nat) {
    pc == Done(Crashed) || pc == Done(Posted(txn)) || (pc.Committed? && pc.txn == txn)
  }

  ghost predicate PostedOnce(s: State) {
    && (forall id :: id in s.tables.txns ==>
          s.tables.txns[id].postedBy < |s.procs| && Remembers(s.procs[s.tables.txns[id].postedBy].pc, id))
    && (forall i, j | i in s.tables.txns && j in s.tables.txns ::
          s.tables.txns[i].postedBy == s.tables.txns[j].postedBy ==> i == j)
  }

  /** And a call that says it posted a transaction did. */
  ghost predicate PostedForReal(s: State) {
    forall p :: 0 <= p < |s.procs| ==>
      && (s.procs[p].pc.Committed? ==>
            s.procs[p].pc.txn in s.tables.txns && s.tables.txns[s.procs[p].pc.txn].postedBy == p)
      && (s.procs[p].pc.Done? && s.procs[p].pc.outcome.Posted? ==>
            s.procs[p].pc.outcome.txn in s.tables.txns && s.tables.txns[s.procs[p].pc.outcome.txn].postedBy == p)
  }

  ghost predicate KeysSettled(s: State) {
    && KeysUnique(s.tables.txns)
    && (forall p :: 0 <= p < |s.procs| ==> KeyStatus(s, s.procs[p]))
  }

  ghost predicate AnswersRight(s: State) {
    forall p :: 0 <= p < |s.procs| ==> AnswerIsRight(s, s.procs[p])
  }

  ghost predicate ReplayInv(s: State) {
    KeysSettled(s) && AnswersRight(s) && PostedOnce(s) && PostedForReal(s)
  }

  // ---------------------------------------------------------------- moves

  ghost predicate ReplayMove(s: State, q: Proc, m: Move) {
    !m.Wait? && !m.CommitPosting? ==>
      && KeyStatus(s, q.(pc := m.pc)) && AnswerIsRight(s, q.(pc := m.pc))
      && (m.pc.Committed? ==> q.pc.Committed? && m.pc.txn == q.pc.txn)
      && (m.pc.Done? && m.pc.outcome.Posted? ==> q.pc.Committed? && m.pc.outcome.txn == q.pc.txn)
      && (q.pc.Committed? ==> Remembers(m.pc, q.pc.txn))
      && !q.pc.Done?
  }

  lemma DecideIsReplayMove(s: State, q: Proc, redis: Redis)
    requires TypedPc(q) && KeyStatus(s, q)
    ensures ReplayMove(s, q, Decide(s, q, redis))
  {
  }

  lemma MovesAreReplayMoves(s: State, p: nat, m: Move)
    requires p < |s.procs| && TypedPc(s.procs[p]) && KeyStatus(s, s.procs[p]) && MayMove(s, p, m)
    ensures ReplayMove(s, s.procs[p], m)
  {
    if redis :| m == MoveOf(s, p, redis) {
      DecideIsReplayMove(s, s.procs[p], redis);
    }
  }

  lemma QuietMoveKeepsReplay(s: State, p: nat, m: Move)
    requires ReplayInv(s) && p < |s.procs| && ReplayMove(s, s.procs[p], m) && !m.CommitPosting?
    ensures ReplayInv(Apply(s, p, m))
  {
    var s' := Apply(s, p, m);
    assert s'.tables == s.tables && s'.c == s.c;
    forall i | 0 <= i < |s'.procs| ensures KeyStatus(s', s'.procs[i]) && AnswerIsRight(s', s'.procs[i]) {
      if i != p { assert s'.procs[i] == s.procs[i] && KeyStatus(s, s.procs[i]) && AnswerIsRight(s, s.procs[i]); }
      else { assert KeyStatus(s, s.procs[p]) && AnswerIsRight(s, s.procs[p]); }
    }
    forall id | id in s.tables.txns ensures Remembers(s'.procs[s.tables.txns[id].postedBy].pc, id) {
      assert Remembers(s.procs[s.tables.txns[id].postedBy].pc, id);
    }
  }

  lemma CommitKeepsKeys(s: State, p: nat, m: Move)
    requires KeysSecured(s) && KeysSettled(s) && p < |s.procs| && TypedMove(s.procs[p], m) && m.CommitPosting?
    requires s.tables.nextId !in s.tables.txns
    ensures KeysSettled(Apply(s, p, m))
  {
    var s', q, id := Apply(s, p, m), s.procs[p], s.tables.nextId;
    assert KeyStatus(s, q);
    forall i | 0 <= i < |s'.procs| ensures KeyStatus(s', s'.procs[i]) {
      if i != p {
        var r := s.procs[i];
        assert s'.procs[i] == r && KeyStatus(s, r);
        if r.req.Transfer? && r.pc.Violated? {
          var winner :| winner in s.tables.txns && s.tables.txns[winner].key == Some(r.req.key);
          assert winner in s'.tables.txns && s'.tables.txns[winner].key == Some(r.req.key);
        } else if r.req.Transfer? && HoldsKey(r, r.req.key) && HoldsKey(q, r.req.key) {
          OneKeyHolder(s, p, i, r.req.key);
        }
      }
    }
  }

  lemma OneKeyHolder(s: State, p: nat, q: nat, key: string)
    requires KeysSecured(s) && p < |s.procs| && q < |s.procs| && HoldsKey(s.procs[p], key) && HoldsKey(s.procs[q], key)
    ensures p == q
  {
    assert s.keys[key] == p;
    assert s.keys[key] == q;
  }

  lemma OthersAnswersStand(s: State, p: nat, m: Move, i: nat)
    requires p < |s.procs| && i < |s.procs| && i != p && AnswerIsRight(s, s.procs[i])
    requires TypedMove(s.procs[p], m) && m.CommitPosting? && s.tables.nextId !in s.tables.txns
    ensures Apply(s, p, m).procs[i] == s.procs[i] && AnswerIsRight(Apply(s, p, m), s.procs[i])
  {
    var q := s.procs[i];
    if q.pc == Done(Failed(KeyUsedForDifferentRequest)) {
      var t := TxnOf(s.c, s.procs[p].req, m.at, p);
      KeyStaysTaken(s.tables.txns, s.tables.nextId, t, q.req.key, HashOf(s.c, q.req));
    }
  }

  lemma CommitKeepsAnswers(s: State, p: nat, m: Move)
    requires ReplayInv(s) && p < |s.procs| && TypedMove(s.procs[p], m) && m.CommitPosting?
    requires s.tables.nextId !in s.tables.txns
    ensures AnswersRight(Apply(s, p, m)) && PostedOnce(Apply(s, p, m)) && PostedForReal(Apply(s, p, m))
  {
    var s' := Apply(s, p, m);
    forall i | 0 <= i < |s'.procs| ensures AnswerIsRight(s', s'.procs[i]) {
      if i != p { OthersAnswersStand(s, p, m, i); }
    }
    forall id | id in s.tables.txns ensures s.tables.txns[id].postedBy != p {
      assert Remembers(s.procs[s.tables.txns[id].postedBy].pc, id);
    }
  }

  lemma ReplayInvStep(s: State, a: Action)
    requires Typed(s) && KeysSecured(s) && ReplayInv(s) && s.tables.nextId !in s.tables.txns
    ensures ReplayInv(Step(s, a))
  {
    var s' := Step(s, a);
    StepCases(s, a);
    if s'.tables == s.tables && s'.c == s.c && s'.procs == s.procs {
      assert forall i :: 0 <= i < |s.procs| ==> KeyStatus(s, s.procs[i]) && AnswerIsRight(s, s.procs[i]);
    } else {
      var m :| TypedMove(s.procs[a.p], m) && MayMove(s, a.p, m) && s' == Apply(s, a.p, m);
      if m.CommitPosting? {
        CommitKeepsKeys(s, a.p, m);
        CommitKeepsAnswers(s, a.p, m);
      } else {
        MovesAreReplayMoves(s, a.p, m);
        QuietMoveKeepsReplay(s, a.p, m);
      }
    }
  }

  // ---------------------------------------------------------------- what follows

  /** The transaction a finished call answers with. */
  function AnswerOf(o: Outcome): Option<nat> {
    match o
    case Posted(id) => Some(id)
    case Replayed(id) => Some(id)
    case _ => None
  }

  lemma AnswerLegs(s: State, p: nat, id: nat)
    requires CollisionFree(s.c.digest) && p < |s.procs| && s.procs[p].req.Transfer?
    requires id in s.tables.txns && Recorded(s, id)
    requires
      || s.tables.txns[id].postedBy == p
      || s.tables.txns[id].requestHash == Some(HashOf(s.c, s.procs[p].req))
    ensures EntriesOf(s.tables.entries, id) == [Legs(s.c, s.procs[p].req, id).0, Legs(s.c, s.procs[p].req, id).1]
    ensures s.tables.txns[id].postedBy == p ==> s.tables.txns[id].key == Some(s.procs[p].req.key)
  {
    var poster := s.procs[s.tables.txns[id].postedBy].req;
    if s.tables.txns[id].postedBy != p {
      SameHashSameLegs(s.c, s.procs[p].req, poster, id);
    }
  }

  lemma AnswerIsOwn(s: State, p: nat)
    requires AnswersRight(s) && PostedForReal(s)
    requires p < |s.procs| && s.procs[p].pc.Done? && AnswerOf(s.procs[p].pc.outcome).Some? && s.procs[p].req.Transfer?
    ensures var id, req := AnswerOf(s.procs[p].pc.outcome).value, s.procs[p].req;
      && id in s.tables.txns
      && (s.tables.txns[id].postedBy == p
          || (s.tables.txns[id].requestHash == Some(HashOf(s.c, req)) && s.tables.txns[id].key == Some(req.key)))
  {
    assert AnswerIsRight(s, s.procs[p]);
  }

  /**
   * Whatever a transfer call answers, by posting or by replay, the transaction is the only one
   * with its key, and its two entries are exactly the movement that call asked for. If it answers
   * that the key was used for a different request, the transaction with the key was posted by a
   * call that asked for something else.
   */
  ghost predicate AnswersForItself(s: State, p: nat) {
    && p < |s.procs| && s.procs[p].req.Transfer?
    && s.procs[p].pc != Done(Failed(IntegrityErrorRaised))
    && (s.procs[p].pc == Done(Failed(KeyUsedForDifferentRequest)) ==>
          exists id :: id in s.tables.txns && PostedDifferently(s, id, s.procs[p].req))
    && (s.procs[p].pc.Done? && AnswerOf(s.procs[p].pc.outcome).Some? ==>
          var id, req := AnswerOf(s.procs[p].pc.outcome).value, s.procs[p].req;
          && id in s.tables.txns && s.tables.txns[id].key == Some(req.key)
          && (forall other :: other in s.tables.txns && s.tables.txns[other].key == Some(req.key) ==> other == id)
          && EntriesOf(s.tables.entries, id) == [
               Entry(id, req.source, RoundCents(-Value(s.c, req))),
               Entry(id, req.destination, RoundCents(Value(s.c, req)))])
  }

  /** Source, destination and printed amount agree. */
  predicate SameMovement(a: Request, b: Request)
    requires a.Transfer? && b.Transfer?
  {
    a.source == b.source && a.destination == b.destination && a.amount == b.amount
  }

  /** Transaction `id` has the key of req, and the call that posted it asked for another movement. */
  ghost predicate PostedDifferently(s: State, id: nat, req: Request)
    requires req.Transfer? && id in s.tables.txns
  {
    var q := s.tables.txns[id].postedBy;
    && q < |s.procs| && s.procs[q].req.Transfer? && s.procs[q].req.key == req.key
    && !SameMovement(s.procs[q].req, req)
  }

  /** The stored fingerprint is the poster's: a request is told it is the same exactly when it is. */
  lemma FingerprintTells(s: State, id: nat, req: Request)
    requires CollisionFree(s.c.digest) && id in s.tables.txns && Recorded(s, id) && s.tables.txns[id].key.Some?
    requires req.Transfer?
    ensures var q := s.tables.txns[id].postedBy;
      && q < |s.procs| && s.procs[q].req.Transfer? && s.tables.txns[id].key == Some(s.procs[q].req.key)
      && RetryAnswer(s.c, s.tables.txns, id, req)
         == if SameMovement(s.procs[q].req, req) then Replayed(id) else Failed(KeyUsedForDifferentRequest)
  {
    var poster := s.procs[s.tables.txns[id].postedBy].req;
    SameHashSameRequest(s.c.digest, req.source, req.destination, req.amount,
                        poster.source, poster.destination, poster.amount);
  }

  lemma DifferentRequestIsTrue(s: State, p: nat)
    requires AllRecorded(s) && AnswersRight(s) && CollisionFree(s.c.digest) && p < |s.procs| && s.procs[p].req.Transfer?
    requires s.procs[p].pc == Done(Failed(KeyUsedForDifferentRequest))
    ensures exists id :: id in s.tables.txns && PostedDifferently(s, id, s.procs[p].req)
  {
    var req := s.procs[p].req;
    assert AnswerIsRight(s, s.procs[p]);
    var id :| id in s.tables.txns && s.tables.txns[id].key == Some(req.key)
              && s.tables.txns[id].requestHash != Some(HashOf(s.c, req));
    assert Recorded(s, id);
    FingerprintTells(s, id, req);
    assert PostedDifferently(s, id, req);
  }

  lemma AnswerIsComplete(s: State, p: nat)
    requires AllRecorded(s) && KeysUnique(s.tables.txns) && AnswersRight(s) && PostedForReal(s)
    requires CollisionFree(s.c.digest) && p < |s.procs| && s.procs[p].req.Transfer?
    requires s.procs[p].pc.Done? && AnswerOf(s.procs[p].pc.outcome).Some?
    ensures var id, req := AnswerOf(s.procs[p].pc.outcome).value, s.procs[p].req;
      && id in s.tables.txns && s.tables.txns[id].key == Some(req.key)
      && EntriesOf(s.tables.entries, id) == [
           Entry(id, req.source, RoundCents(-Value(s.c, req))),
           Entry(id, req.destination, RoundCents(Value(s.c, req)))]
  {
    var id := AnswerOf(s.procs[p].pc.outcome).value;
    AnswerIsOwn(s, p);
    assert Recorded(s, id);
    AnswerLegs(s, p, id);
  }

  lemma TransferAnswersForItself(s: State, p: nat)
    requires AllRecorded(s) && KeysUnique(s.tables.txns) && AnswersRight(s) && PostedForReal(s)
    requires CollisionFree(s.c.digest) && p < |s.procs| && s.procs[p].req.Transfer?
    ensures AnswersForItself(s, p)
  {
    assert AnswerIsRight(s, s.procs[p]);
    if s.procs[p].pc == Done(Failed(KeyUsedForDifferentRequest)) { DifferentRequestIsTrue(s, p); }
    if s.procs[p].pc.Done? && AnswerOf(s.procs[p].pc.outcome).Some? { AnswerIsComplete(s, p); }
  }

  lemma SameHashSameLegs(c: Config, req: Request, poster: Request, id: nat)
    requires CollisionFree(c.digest) && req.Transfer? && poster.Transfer? && HashOf(c, req) == HashOf(c, poster)
    ensures Legs(c, req, id) == Legs(c, poster, id)
  {
    SameHashSameRequest(c.digest, req.source, req.destination, req.amount,
                        poster.source, poster.destination, poster.amount);
  }

  /** What a call whose key transaction `id` has is to be told. */
  function RetryAnswer(c: Config, txns: map<nat, Txn>, id: nat, req: Request): Outcome
    requires req.Transfer? && id in txns
  {
    if txns[id].requestHash == Some(HashOf(c, req)) then Replayed(id) else Failed(KeyUsedForDifferentRequest)
  }

  /**
   * A retry after the commit changes no table, no account and no cached value, whatever the
   * balance or the status is by then.
   */
  lemma RetryChangesNothing(s: State, p: nat, redis: Redis, id: nat)
    requires KeysUnique(s.tables.txns) && p < |s.procs| && s.procs[p].pc.Start? && s.procs[p].req.Transfer?
    requires id in s.tables.txns && s.tables.txns[id].key == Some(s.procs[p].req.key)
    ensures var s', req := Step(s, Run(p, redis)), s.procs[p].req;
      && s'.tables == s.tables && s'.cache == s.cache && s'.accounts == s.accounts
      && s'.procs[p].pc == Done(RetryAnswer(s.c, s.tables.txns, id, req))
  {
  }
}
