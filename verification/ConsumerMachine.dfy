/**
 * The idempotent consumer: any number of consumer processes read the partitions, register an
 * event and apply its balance changes in one database transaction, and only then commit the
 * Kafka offset. Deliveries may repeat, partitions may move between consumers at any moment,
 * and a consumer may stop between any two steps.
 */
module ConsumerMachine {
  import opened Prelude
  import opened LedgerTables
  import opened Projections

  type Log = seq<seq<Event>>

  /** The message in hand is log[k][j]. */
  datatype Pc =
    | Idle
    | Got(k: nat, j: nat)
    | Registered(k: nat, j: nat)                          // processed_events row inserted, not committed
    | Applied(k: nat, j: nat, changes: seq<Change>)       // upserts executed, not committed
    | Acking(k: nat, j: nat)                              // database done; offset not committed yet
    | Stopped                                             // an exception left run()

  datatype Consumer = Consumer(positions: map<nat, nat>, pc: Pc)

  datatype State = State(
    c: Config,
    log: Log,
    catalog: map<nat, Event>,    // bookkeeping: the event each id on the topic stands for
    committed: seq<nat>,         // committed offset of each partition
    processed: set<nat>,         // processed_events
    projection: Balances,        // account_balance_projections
    held: map<nat, nat>,         // registered, uncommitted event ids, by consumer
    consumers: seq<Consumer>)

  datatype Action =
    | Append(k: nat, e: Event)
    | Assign(i: nat, k: nat, from: nat)
    | Revoke(i: nat, k: nat)
    | Deliver(i: nat, k: nat)
    | Register(i: nat)
    | Apply(i: nat)
    | Commit(i: nat)
    | Ack(i: nat, ok: bool)
    | Crash(i: nat)
    | Restart(i: nat)

  predicate Valid(s: State, k: nat, j: nat) { k < |s.log| && j < |s.log[k]| }

  predicate InHand(pc: Pc) { pc.Got? || pc.Registered? || pc.Applied? || pc.Acking? }

  predicate InTransaction(pc: Pc) { pc.Registered? || pc.Applied? }

  function Message(s: State, pc: Pc): Event
    requires InHand(pc) && Valid(s, pc.k, pc.j)
  {
    s.log[pc.k][pc.j]
  }

  function Drop(held: map<nat, nat>, i: nat): map<nat, nat> {
    map id | id in held && held[id] != i :: held[id]
  }

  function Enabled(s: State, a: Action): bool {
    match a
    case Append(k, e) => k < |s.log| && (e.id in s.catalog ==> s.catalog[e.id] == e)
    case Assign(i, k, from) => i < |s.consumers| && !s.consumers[i].pc.Stopped? && k < |s.log| && from <= |s.log[k]|
    case Revoke(i, k) => i < |s.consumers|
    case Deliver(i, k) =>
      && i < |s.consumers| && s.consumers[i].pc.Idle? && k in s.consumers[i].positions
      && Valid(s, k, s.consumers[i].positions[k])
    case Register(i) =>
      && i < |s.consumers| && s.consumers[i].pc.Got? && Valid(s, s.consumers[i].pc.k, s.consumers[i].pc.j)
      // an insert of an id somebody else holds uncommitted waits
      && (Message(s, s.consumers[i].pc).id in s.processed || Message(s, s.consumers[i].pc).id !in s.held)
    case Apply(i) =>
      i < |s.consumers| && s.consumers[i].pc.Registered? && Valid(s, s.consumers[i].pc.k, s.consumers[i].pc.j)
    case Commit(i) =>
      i < |s.consumers| && s.consumers[i].pc.Applied? && Valid(s, s.consumers[i].pc.k, s.consumers[i].pc.j)
    case Ack(i, _) => i < |s.consumers| && s.consumers[i].pc.Acking? && s.consumers[i].pc.k < |s.committed|
    case Crash(i) => i < |s.consumers|
    case Restart(i) => i < |s.consumers| && s.consumers[i].pc.Stopped?
  }

  function WithPc(s: State, i: nat, pc: Pc): State
    requires i < |s.consumers|
  {
    s.(consumers := s.consumers[i := s.consumers[i].(pc := pc)])
  }

  function WithPosition(s: State, i: nat, positions: map<nat, nat>, pc: Pc): State
    requires i < |s.consumers|
  {
    s.(consumers := s.consumers[i := Consumer(positions, pc)])
  }

  function Step(s: State, a: Action): State {
    if !Enabled(s, a) then s else
    match a
    case Append(k, e) => s.(log := s.log[k := s.log[k] + [e]], catalog := s.catalog[e.id := e])
    case Assign(i, k, from) => WithPosition(s, i, s.consumers[i].positions[k := from], s.consumers[i].pc)
    case Revoke(i, k) => WithPosition(s, i, s.consumers[i].positions - {k}, s.consumers[i].pc)
    case Deliver(i, k) =>
      var j := s.consumers[i].positions[k];
      WithPosition(s, i, s.consumers[i].positions[k := j + 1], Got(k, j))
    case Register(i) =>
      var pc := s.consumers[i].pc;
      var id := Message(s, pc).id;
      if id in s.processed then WithPc(s, i, Acking(pc.k, pc.j))  // duplicate: rolled back, acknowledged
      else WithPc(s, i, Registered(pc.k, pc.j)).(held := s.held[id := i])
    case Apply(i) => (
      var pc := s.consumers[i].pc;
      match Changes(s.c, Message(s, pc))
      case None => WithPosition(s, i, map[], Stopped).(held := Drop(s.held, i))  // rolled back, re-raised
      case Some(changes) => WithPc(s, i, Applied(pc.k, pc.j, changes)))
    case Commit(i) =>
      var pc := s.consumers[i].pc;
      WithPc(s, i, Acking(pc.k, pc.j)).(
        processed := s.processed + {Message(s, pc).id},
        projection := ApplyAll(s.projection, pc.changes),
        held := Drop(s.held, i))
    case Ack(i, ok) =>
      var pc := s.consumers[i].pc;
      if ok then WithPc(s, i, Idle).(committed := s.committed[pc.k := pc.j + 1])
      else WithPosition(s, i, map[], Stopped)
    case Crash(i) => WithPosition(s, i, map[], Stopped).(held := Drop(s.held, i))
    case Restart(i) => WithPosition(s, i, map[], Idle)
  }

  function Exec(s: State, actions: seq<Action>): State {
    if actions == [] then s
    else Step(Exec(s, actions[..|actions| - 1]), actions[|actions| - 1])
  }

  ghost predicate Initial(s: State) {
    && (forall k :: 0 <= k < |s.log| ==> s.log[k] == [])
    && |s.committed| == |s.log| && (forall k :: 0 <= k < |s.committed| ==> s.committed[k] == 0)
    && s.catalog == map[] && s.processed == {} && s.projection == map[] && s.held == map[]
    && (forall i :: 0 <= i < |s.consumers| ==> s.consumers[i] == Consumer(map[], Idle))
  }

  // ---------------------------------------------------------------- sums over processed events

  function DeltaOf(c: Config, catalog: map<nat, Event>, id: nat, x: AccountId): int {
    if id in catalog then ProjectedDelta(c, catalog[id], x) else 0
  }

  /** The sum of the deltas of a set of events: each counts once, in whatever order. */
  ghost function SumOver(c: Config, catalog: map<nat, Event>, ids: set<nat>, x: AccountId): int {
    if ids == {} then 0
    else DeltaOf(c, catalog, Pick(ids), x) + SumOver(c, catalog, ids - {Pick(ids)}, x)
  }

  lemma {:induction false} SumInsert(c: Config, catalog: map<nat, Event>, ids: set<nat>, id: nat, x: AccountId)
    requires id !in ids
    ensures SumOver(c, catalog, ids + {id}, x) == SumOver(c, catalog, ids, x) + DeltaOf(c, catalog, id, x)
    decreases ids
  {
    var all := ids + {id};
    var p := Pick(all);
    if p == id {
      assert all - {p} == ids;
    } else {
      SumInsert(c, catalog, ids - {p}, id, x);
      assert all - {p} == (ids - {p}) + {id};
      SumRemove(c, catalog, ids, p, x);
    }
  }

  lemma {:induction false} SumRemove(c: Config, catalog: map<nat, Event>, ids: set<nat>, id: nat, x: AccountId)
    requires id in ids
    ensures SumOver(c, catalog, ids, x) == SumOver(c, catalog, ids - {id}, x) + DeltaOf(c, catalog, id, x)
    decreases ids
  {
    var p := Pick(ids);
    if p != id {
      SumRemove(c, catalog, ids - {p}, id, x);
      SumRemove(c, catalog, ids - {id}, p, x);
      assert ids - {p} - {id} == ids - {id} - {p};
    }
  }

  lemma {:induction false} SumFrame(c: Config, catalog: map<nat, Event>, catalog': map<nat, Event>, ids: set<nat>,
      x: AccountId)
    requires forall id :: id in ids ==> id in catalog && id in catalog' && catalog'[id] == catalog[id]
    ensures SumOver(c, catalog', ids, x) == SumOver(c, catalog, ids, x)
    decreases ids
  {
    if ids != {} { SumFrame(c, catalog, catalog', ids - {Pick(ids)}, x); }
  }

  // ---------------------------------------------------------------- exactly-once effect

  ghost predicate Catalogued(s: State) {
    forall k, j :: 0 <= k < |s.log| && 0 <= j < |s.log[k]| ==>
      s.log[k][j].id in s.catalog && s.catalog[s.log[k][j].id] == s.log[k][j]
  }

  /** A transaction in progress holds its own event id, which is not processed yet; its upserts are the event's. */
  ghost predicate TransactionOk(s: State, i: nat)
    requires i < |s.consumers|
  {
    var pc := s.consumers[i].pc;
    && (InHand(pc) ==> Valid(s, pc.k, pc.j))
    && (InTransaction(pc) ==>
          var id := Message(s, pc).id;
          && id in s.held && s.held[id] == i && id !in s.processed
          && (pc.Applied? ==> Changes(s.c, Message(s, pc)) == Some(pc.changes)))
    && (pc.Acking? ==> Message(s, pc).id in s.processed)
  }

  ghost predicate TransactionsOk(s: State) {
    forall i :: 0 <= i < |s.consumers| ==> TransactionOk(s, i)
  }

  ghost predicate ProcessedOk(s: State) {
    forall id :: id in s.processed ==> id in s.catalog && Decodes(s.c, s.catalog[id])
  }

  /** The projection of x is the sum over the distinct processed events: each applied once, none half-applied. */
  ghost predicate ExactlyOnce(s: State) {
    forall x: AccountId :: BalanceIn(s.projection, x) == SumOver(s.c, s.catalog, s.processed, x)
  }

  ghost predicate EffectInv(s: State) {
    Catalogued(s) && TransactionsOk(s) && HeldOk(s) && ProcessedOk(s) && ExactlyOnce(s)
  }

  /** What every step keeps: messages stay where they are, ids keep their event, processed stays processed. */
  ghost predicate Grown(s: State, s': State) {
    && s'.c == s.c && |s'.log| == |s.log| && |s'.consumers| == |s.consumers|
    && (forall id :: id in s.catalog ==> id in s'.catalog && s'.catalog[id] == s.catalog[id])
    && (forall k :: 0 <= k < |s.log| ==> s.log[k] <= s'.log[k])
    && s.processed <= s'.processed
  }

  /** A step of consumer i: the log and the other consumers stay, and so does what the others hold. */
  ghost predicate StepOf(s: State, s': State, i: nat) {
    && s'.c == s.c && s'.log == s.log && s'.catalog == s.catalog && |s'.consumers| == |s.consumers|
    && (forall j :: 0 <= j < |s.consumers| && j != i ==> s'.consumers[j] == s.consumers[j])
    && (forall id :: id in s.held && s.held[id] != i ==> id in s'.held && s'.held[id] == s.held[id])
    && (forall id :: id in s'.held && s'.held[id] != i ==> id in s.held && s'.held[id] == s.held[id])
    && s.processed <= s'.processed
    && (forall id :: id in s'.processed && id !in s.processed ==> id in s.held && s.held[id] == i)
  }

  /** The statements of the database transaction; the other steps touch Kafka or the process alone. */
  predicate InDatabase(a: Action) { a.Register? || a.Apply? || a.Commit? }

  lemma DatabaseStepIsByOne(s: State, a: Action)
    requires TransactionsOk(s) && InDatabase(a) && Enabled(s, a)
    ensures StepOf(s, Step(s, a), a.i)
  {
    assert TransactionOk(s, a.i);
  }

  lemma StepIsByOne(s: State, a: Action)
    requires TransactionsOk(s) && !a.Append?
    ensures StepOf(s, Step(s, a), a.i)
  {
    if Enabled(s, a) && InDatabase(a) { DatabaseStepIsByOne(s, a); }
  }

  lemma AppendGrows(s: State, a: Action)
    requires Catalogued(s) && a.Append?
    ensures var s' := Step(s, a);
      && Grown(s, s') && Catalogued(s')
      && s'.consumers == s.consumers && s'.held == s.held && s'.processed == s.processed
        && s'.projection == s.projection
  {
  }

  lemma LogStep(s: State, a: Action)
    requires Catalogued(s) && TransactionsOk(s)
    ensures Grown(s, Step(s, a)) && Catalogued(Step(s, a))
  {
    if a.Append? { AppendGrows(s, a); } else { StepIsByOne(s, a); }
  }

  lemma TransactionFrame(s: State, s': State, i: nat)
    requires i < |s.consumers| && TransactionOk(s, i) && Grown(s, s') && s'.consumers[i] == s.consumers[i]
    requires forall id :: id in s.held && s.held[id] == i ==>
      id in s'.held && s'.held[id] == i && (id in s'.processed ==> id in s.processed)
    ensures TransactionOk(s', i)
  {
  }

  predicate ActsOn(a: Action, i: nat) { !a.Append? && a.i == i }

  lemma OthersKeepTheirTransaction(s: State, a: Action, i: nat)
    requires Catalogued(s) && TransactionsOk(s) && i < |s.consumers| && !ActsOn(a, i)
    ensures |Step(s, a).consumers| == |s.consumers| && Step(s, a).consumers[i] == s.consumers[i]
    ensures TransactionOk(Step(s, a), i)
  {
    LogStep(s, a);
    if a.Append? { AppendGrows(s, a); } else { StepIsByOne(s, a); }
    TransactionFrame(s, Step(s, a), i);
  }

  lemma OwnDatabaseStep(s: State, a: Action)
    requires TransactionsOk(s) && InDatabase(a) && Enabled(s, a)
    ensures |Step(s, a).consumers| == |s.consumers| && TransactionOk(Step(s, a), a.i)
  {
    assert TransactionOk(s, a.i);
  }

  lemma OwnTransactionStep(s: State, a: Action)
    requires TransactionsOk(s) && !a.Append? && Enabled(s, a)
    ensures |Step(s, a).consumers| == |s.consumers| && TransactionOk(Step(s, a), a.i)
  {
    if InDatabase(a) { OwnDatabaseStep(s, a); } else { assert TransactionOk(s, a.i); }
  }

  lemma TransactionsStep(s: State, a: Action)
    requires Catalogued(s) && TransactionsOk(s)
    ensures TransactionsOk(Step(s, a))
  {
    LogStep(s, a);
    forall i | 0 <= i < |s.consumers| ensures TransactionOk(Step(s, a), i) {
      if !ActsOn(a, i) { OthersKeepTheirTransaction(s, a, i); }
      else if Enabled(s, a) { OwnTransactionStep(s, a); }
      else { assert TransactionOk(s, i); }
    }
  }

  ghost predicate HeldBy(s: State, id: nat, i: nat) {
    && i < |s.consumers| && InTransaction(s.consumers[i].pc)
    && Valid(s, s.consumers[i].pc.k, s.consumers[i].pc.j) && Message(s, s.consumers[i].pc).id == id
  }

  ghost predicate HeldOk(s: State) {
    forall id :: id in s.held ==> HeldBy(s, id, s.held[id])
  }

  lemma OwnHeldDatabaseStep(s: State, a: Action, id: nat)
    requires HeldOk(s) && InDatabase(a) && Enabled(s, a)
    requires id in Step(s, a).held && Step(s, a).held[id] == a.i
    ensures HeldBy(Step(s, a), id, a.i)
  {
    if id in s.held { assert HeldBy(s, id, s.held[id]); }
  }

  lemma OwnHeldStep(s: State, a: Action, id: nat)
    requires HeldOk(s) && !a.Append? && Enabled(s, a)
    requires id in Step(s, a).held && Step(s, a).held[id] == a.i
    ensures HeldBy(Step(s, a), id, a.i)
  {
    if InDatabase(a) { OwnHeldDatabaseStep(s, a, id); } else { assert HeldBy(s, id, s.held[id]); }
  }

  lemma HeldStep(s: State, a: Action)
    requires Catalogued(s) && TransactionsOk(s) && HeldOk(s)
    ensures HeldOk(Step(s, a))
  {
    var s' := Step(s, a);
    LogStep(s, a);
    forall id | id in s'.held ensures HeldBy(s', id, s'.held[id]) {
      if ActsOn(a, s'.held[id]) && Enabled(s, a) {
        OwnHeldStep(s, a, id);
      } else {
        HeldByOthers(s, a, id);
      }
    }
  }

  lemma HeldByOthers(s: State, a: Action, id: nat)
    requires Catalogued(s) && TransactionsOk(s) && HeldOk(s) && id in Step(s, a).held
    requires !ActsOn(a, Step(s, a).held[id]) || !Enabled(s, a)
    ensures HeldBy(Step(s, a), id, Step(s, a).held[id])
  {
    if Enabled(s, a) {
      LogStep(s, a);
      if a.Append? { AppendGrows(s, a); } else { StepIsByOne(s, a); }
      assert HeldBy(s, id, s.held[id]);
      OthersKeepTheirTransaction(s, a, s.held[id]);
    }
  }

  lemma CommitCountsOnce(s: State, i: nat, x: AccountId)
    requires EffectInv(s) && Enabled(s, Commit(i))
    ensures var s' := Step(s, Commit(i)); BalanceIn(s'.projection, x) == SumOver(s'.c, s'.catalog, s'.processed, x)
  {
    var pc := s.consumers[i].pc;
    assert TransactionOk(s, i);
    ApplyAllAdds(s.projection, pc.changes, x);
    SumInsert(s.c, s.catalog, s.processed, Message(s, pc).id, x);
  }

  lemma ExactlyOnceStep(s: State, a: Action)
    requires EffectInv(s)
    ensures ExactlyOnce(Step(s, a)) && ProcessedOk(Step(s, a))
  {
    LogStep(s, a);
    var s' := Step(s, a);
    if a.Commit? && Enabled(s, a) {
      assert TransactionOk(s, a.i);
      forall x: AccountId ensures BalanceIn(s'.projection, x) == SumOver(s'.c, s'.catalog, s'.processed, x) {
        CommitCountsOnce(s, a.i, x);
      }
    } else {
      assert s'.projection == s.projection && s'.processed == s.processed;
      forall x: AccountId ensures BalanceIn(s'.projection, x) == SumOver(s'.c, s'.catalog, s'.processed, x) {
        SumFrame(s.c, s.catalog, s'.catalog, s.processed, x);
      }
    }
  }

  lemma EffectInvStep(s: State, a: Action)
    requires EffectInv(s)
    ensures EffectInv(Step(s, a))
  {
    LogStep(s, a);
    TransactionsStep(s, a);
    HeldStep(s, a);
    ExactlyOnceStep(s, a);
  }

  /** Exactly-once effect in every run, however messages are repeated, reordered or rewound. */
  lemma {:induction false} EffectsAreExactlyOnce(s0: State, actions: seq<Action>)
    requires Initial(s0)
    ensures EffectInv(Exec(s0, actions))
  {
    if actions != [] {
      EffectsAreExactlyOnce(s0, actions[..|actions| - 1]);
      EffectInvStep(Exec(s0, actions[..|actions| - 1]), actions[|actions| - 1]);
    }
  }

  // ---------------------------------------------------------------- acknowledgement safety

  /** A consumer starts reading a partition at its committed offset, or earlier. */
  predicate FromCommitted(s: State, a: Action) {
    a.Assign? && a.k < |s.committed| ==> a.from <= s.committed[a.k]
  }

  ghost predicate AllFromCommitted(s: State, actions: seq<Action>) {
    forall n :: 0 <= n < |actions| ==> FromCommitted(Exec(s, actions[..n]), actions[n])
  }

  ghost predicate DoneBelow(s: State, k: nat, n: nat)
    requires k < |s.log|
  {
    n <= |s.log[k]| && forall j :: 0 <= j < n ==> s.log[k][j].id in s.processed
  }

  /** What a consumer has read is processed, but for the one message in hand. */
  ghost predicate PositionOk(s: State, q: Consumer, k: nat)
    requires k in q.positions
  {
    && k < |s.log| && q.positions[k] <= |s.log[k]|
    && forall j :: 0 <= j < q.positions[k] ==>
         s.log[k][j].id in s.processed || (InHand(q.pc) && q.pc.k == k && q.pc.j == j)
  }

  ghost predicate ReaderOk(s: State, q: Consumer) {
    && (InHand(q.pc) ==> q.pc.k < |s.log| && DoneBelow(s, q.pc.k, q.pc.j))
    && (forall k :: k in q.positions ==> PositionOk(s, q, k))
  }

  ghost predicate AckSafe(s: State) {
    |s.committed| == |s.log| && forall k :: 0 <= k < |s.log| ==> DoneBelow(s, k, s.committed[k])
  }

  ghost predicate AckInv(s: State) {
    AckSafe(s) && forall i :: 0 <= i < |s.consumers| ==> ReaderOk(s, s.consumers[i])
  }

  lemma ReaderFrame(s: State, s': State, q: Consumer)
    requires Grown(s, s') && ReaderOk(s, q)
    ensures ReaderOk(s', q)
  {
    forall k | k in q.positions ensures PositionOk(s', q, k) { assert PositionOk(s, q, k); }
  }

  /** Once the message in hand is processed it no longer needs to be excepted. */
  lemma PositionAfterAck(s: State, q: Consumer, k: nat)
    requires k in q.positions && PositionOk(s, q, k)
    requires q.pc.Acking? && Valid(s, q.pc.k, q.pc.j) && Message(s, q.pc).id in s.processed
    ensures PositionOk(s, Consumer(q.positions, Idle), k)
  {
  }

  lemma AckedReader(s: State, i: nat, ok: bool)
    requires AckInv(s) && TransactionsOk(s) && Enabled(s, Ack(i, ok))
    ensures ReaderOk(Step(s, Ack(i, ok)), Step(s, Ack(i, ok)).consumers[i])
  {
    var s', q := Step(s, Ack(i, ok)), s.consumers[i];
    assert ReaderOk(s, q) && TransactionOk(s, i);
    forall k | k in s'.consumers[i].positions ensures PositionOk(s', s'.consumers[i], k) {
      PositionAfterAck(s, q, k);
    }
  }

  lemma AssignedReader(s: State, a: Action)
    requires AckInv(s) && a.Assign? && Enabled(s, a) && FromCommitted(s, a)
    ensures ReaderOk(Step(s, a), Step(s, a).consumers[a.i])
  {
    var s', q := Step(s, a), s.consumers[a.i];
    assert ReaderOk(s, q) && DoneBelow(s, a.k, s.committed[a.k]);
    forall k | k in s'.consumers[a.i].positions ensures PositionOk(s', s'.consumers[a.i], k) {
      if k != a.k { assert PositionOk(s, q, k); }
    }
  }

  lemma DeliveredReader(s: State, i: nat, k: nat)
    requires AckInv(s) && Enabled(s, Deliver(i, k))
    ensures ReaderOk(Step(s, Deliver(i, k)), Step(s, Deliver(i, k)).consumers[i])
  {
    var s', q := Step(s, Deliver(i, k)), s.consumers[i];
    assert ReaderOk(s, q) && PositionOk(s, q, k);
    forall n | n in s'.consumers[i].positions ensures PositionOk(s', s'.consumers[i], n) {
      assert PositionOk(s, q, n);
    }
  }

  /** Registering, applying, committing and revoking keep what is already known of the reader. */
  lemma WorkingReader(s: State, a: Action)
    requires AckInv(s) && TransactionsOk(s) && Enabled(s, a)
    requires a.Revoke? || a.Register? || a.Apply? || a.Commit? || a.Crash? || a.Restart?
    ensures ReaderOk(Step(s, a), Step(s, a).consumers[a.i])
  {
    var s', q := Step(s, a), s.consumers[a.i];
    StepIsByOne(s, a);
    assert ReaderOk(s, q);
    forall k | k in s'.consumers[a.i].positions ensures PositionOk(s', s'.consumers[a.i], k) {
      assert PositionOk(s, q, k);
    }
  }

  lemma ReaderStep(s: State, a: Action, i: nat)
    requires Catalogued(s) && AckInv(s) && TransactionsOk(s) && FromCommitted(s, a) && i < |s.consumers|
    ensures |Step(s, a).consumers| == |s.consumers| && ReaderOk(Step(s, a), Step(s, a).consumers[i])
  {
    LogStep(s, a);
    assert ReaderOk(s, s.consumers[i]);
    if !ActsOn(a, i) {
      OthersKeepTheirTransaction(s, a, i);
      ReaderFrame(s, Step(s, a), s.consumers[i]);
    } else if Enabled(s, a) {
      match a {
        case Ack(_, ok) => AckedReader(s, i, ok);
        case Assign(_, _, _) => AssignedReader(s, a);
        case Deliver(_, k) => DeliveredReader(s, i, k);
        case _ => WorkingReader(s, a);
      }
    }
  }

  lemma AckSafeStep(s: State, a: Action)
    requires EffectInv(s) && AckInv(s)
    ensures AckSafe(Step(s, a))
  {
    LogStep(s, a);
    var s' := Step(s, a);
    forall k | 0 <= k < |s'.log| ensures DoneBelow(s', k, s'.committed[k]) {
      assert DoneBelow(s, k, s.committed[k]);
      if a.Ack? && Enabled(s, a) { assert ReaderOk(s, s.consumers[a.i]) && TransactionOk(s, a.i); }
    }
  }

  lemma AckInvStep(s: State, a: Action)
    requires EffectInv(s) && AckInv(s) && FromCommitted(s, a)
    ensures AckInv(Step(s, a))
  {
    LogStep(s, a);
    AckSafeStep(s, a);
    forall i | 0 <= i < |s.consumers| ensures ReaderOk(Step(s, a), Step(s, a).consumers[i]) { ReaderStep(s, a, i); }
  }

  /** Nothing below a committed offset is unprocessed, in any run, even when a stale consumer moves the offset back. */
  lemma {:induction false} AcknowledgedMeansProcessed(s0: State, actions: seq<Action>)
    requires Initial(s0) && AllFromCommitted(s0, actions)
    ensures EffectInv(Exec(s0, actions)) && AckInv(Exec(s0, actions))
  {
    EffectsAreExactlyOnce(s0, actions);
    if actions != [] {
      var init := actions[..|actions| - 1];
      assert forall n :: 0 <= n < |init| ==> init[..n] == actions[..n];
      AcknowledgedMeansProcessed(s0, init);
      assert FromCommitted(Exec(s0, init), actions[|actions| - 1]);
      AckInvStep(Exec(s0, init), actions[|actions| - 1]);
    }
  }

  // ---------------------------------------------------------------- what an undecodable message does

  /** A copy of the event lies in the log with everything before it processed. */
  ghost predicate ReachedAt(s: State, id: nat, k: nat, j: nat) {
    Valid(s, k, j) && s.log[k][j].id == id && DoneBelow(s, k, j)
  }

  /** Nothing is processed but by reading some partition in order. */
  ghost predicate ReachInv(s: State) {
    forall id :: id in s.processed ==> exists k: nat, j: nat :: ReachedAt(s, id, k, j)
  }

  lemma ReachedStays(s: State, s': State, id: nat, k: nat, j: nat)
    requires Grown(s, s') && ReachedAt(s, id, k, j)
    ensures ReachedAt(s', id, k, j)
  {
  }

  lemma OnlyCommitsProcess(s: State, a: Action, id: nat)
    requires TransactionsOk(s) && id in Step(s, a).processed && id !in s.processed
    ensures a.Commit? && Enabled(s, a) && id == Message(s, s.consumers[a.i].pc).id
  {
  }

  lemma ReachInvStep(s: State, a: Action)
    requires EffectInv(s) && AckInv(s) && ReachInv(s)
    ensures ReachInv(Step(s, a))
  {
    var s' := Step(s, a);
    LogStep(s, a);
    forall id | id in s'.processed ensures exists k: nat, j: nat :: ReachedAt(s', id, k, j) {
      if id in s.processed {
        var k: nat, j: nat :| ReachedAt(s, id, k, j);
        ReachedStays(s, s', id, k, j);
      } else {
        OnlyCommitsProcess(s, a, id);
        var pc := s.consumers[a.i].pc;
        assert ReaderOk(s, s.consumers[a.i]);
        assert ReachedAt(s, id, pc.k, pc.j);
        ReachedStays(s, s', id, pc.k, pc.j);
      }
    }
  }

  /** Every message of partition k up to and including j can be decoded. */
  ghost predicate ClearTo(s: State, k: nat, j: nat) {
    Valid(s, k, j) && forall i :: 0 <= i <= j ==> Decodes(s.c, s.log[k][i])
  }

  /** Some copy of the event can be reached: nothing undecodable lies before it, and it decodes itself. */
  ghost predicate Reachable(s: State, id: nat) {
    exists k: nat, j: nat :: ClearTo(s, k, j) && s.log[k][j].id == id
  }

  /** An event all of whose copies lie at or behind undecodable messages is never in processed_events. */
  lemma ProcessedIsReachable(s: State, id: nat)
    requires Catalogued(s) && ProcessedOk(s) && ReachInv(s) && id in s.processed
    ensures Reachable(s, id)
  {
    var k: nat, j: nat :| ReachedAt(s, id, k, j);
    forall i | 0 <= i <= j ensures Decodes(s.c, s.log[k][i]) {
      assert s.log[k][i].id in s.processed;
    }
    assert ClearTo(s, k, j);
  }

  /** Every partition has been read up to its first undecodable message, or to its end. */
  ghost predicate CaughtUp(s: State) {
    |s.committed| == |s.log| && forall k: nat, j: nat :: ClearTo(s, k, j) ==> j < s.committed[k]
  }

  lemma CaughtUpProcessesReachable(s: State, id: nat)
    requires AckSafe(s) && CaughtUp(s) && Reachable(s, id)
    ensures id in s.processed
  {
    var k: nat, j: nat :| ClearTo(s, k, j) && s.log[k][j].id == id;
    assert DoneBelow(s, k, s.committed[k]);
  }

  /** In every partition an undecodable message comes before any copy of the event. */
  ghost predicate ShutOut(s: State, id: nat) {
    forall k :: 0 <= k < |s.log| ==> BarredIn(s, k, id)
  }

  ghost predicate BarredIn(s: State, k: nat, id: nat) {
    exists i: nat :: Bars(s, k, i, id)
  }

  ghost predicate Bars(s: State, k: nat, i: nat, id: nat) {
    Valid(s, k, i) && !Decodes(s.c, s.log[k][i]) && forall j :: 0 <= j < i ==> s.log[k][j].id != id
  }

  lemma ShutOutStaysOut(s: State, s': State, id: nat)
    requires Grown(s, s') && ShutOut(s, id)
    ensures ShutOut(s', id)
  {
    forall k | 0 <= k < |s'.log| ensures BarredIn(s', k, id) {
      assert BarredIn(s, k, id);
      var i: nat :| Bars(s, k, i, id);
      assert Bars(s', k, i, id);
    }
  }

  lemma ShutOutIsUnreachable(s: State, id: nat)
    requires ShutOut(s, id)
    ensures !Reachable(s, id)
  {
    forall k: nat, j: nat | ClearTo(s, k, j) ensures s.log[k][j].id != id {
      assert BarredIn(s, k, id);
    }
  }

  lemma ShutOutIsUnprocessed(s: State, id: nat)
    requires Catalogued(s) && ProcessedOk(s) && ReachInv(s) && ShutOut(s, id)
    ensures id !in s.processed
  {
    ShutOutIsUnreachable(s, id);
    if id in s.processed { ProcessedIsReachable(s, id); }
  }

  /** An event that cannot be decoded is never acknowledged, nor is anything of its partition that lies behind it. */
  lemma UndecodableBlocksItsPartition(s: State, k: nat, j: nat)
    requires EffectInv(s) && AckInv(s) && ReachInv(s) && Valid(s, k, j) && !Decodes(s.c, s.log[k][j])
    ensures s.log[k][j].id !in s.processed && s.committed[k] <= j
    ensures forall i :: j < i < |s.log[k]| && s.log[k][i].id in s.processed ==>
      exists n: nat, m: nat :: (n != k || m < j) && ClearTo(s, n, m) && s.log[n][m].id == s.log[k][i].id
  {
    assert DoneBelow(s, k, s.committed[k]);
    forall i | j < i < |s.log[k]| && s.log[k][i].id in s.processed
      ensures exists n: nat, m: nat :: (n != k || m < j) && ClearTo(s, n, m) && s.log[n][m].id == s.log[k][i].id
    {
      ProcessedIsReachable(s, s.log[k][i].id);
      var n: nat, m: nat :| ClearTo(s, n, m) && s.log[n][m].id == s.log[k][i].id;
      assert n != k || m < j;
    }
  }

  /** Everything the consumers keep, together. */
  ghost predicate SinkInv(s: State) {
    EffectInv(s) && AckInv(s) && ReachInv(s)
  }

  lemma SinkInvStep(s: State, a: Action)
    requires SinkInv(s) && FromCommitted(s, a)
    ensures SinkInv(Step(s, a)) && Grown(s, Step(s, a))
  {
    EffectInvStep(s, a);
    AckInvStep(s, a);
    ReachInvStep(s, a);
    LogStep(s, a);
  }
}
