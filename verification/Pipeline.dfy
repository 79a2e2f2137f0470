/**
 * The whole pipeline: ledger commits add outbox rows, workers put them on the topic, consumers
 * project them. Every component takes any of its steps at any time, with all its failures.
 */
module Pipeline {
  import opened Prelude
  import opened LedgerTables
  import opened LedgerBooks
  import L = LedgerMachine
  import LT = LedgerTheorems
  import R = OutboxRows
  import O = OutboxMachine
  import opened Projections
  import C = ConsumerMachine

  datatype State = State(ledger: L.State, outbox: O.State, sink: C.State)

  datatype Action = LedgerAct(l: L.Action) | OutboxAct(o: O.Action) | SinkAct(s: C.Action)

  /** The row inserted by a commit becomes visible to the workers with it. */
  ghost function WithLedger(s: State, ledger: L.State): State {
    var rows := ledger.tables.outbox;
    if |rows| == |s.ledger.tables.outbox| || rows == [] then s.(ledger := ledger)
    else s.(ledger := ledger, outbox := O.Step(s.outbox, O.Emit(rows[|rows| - 1])))
  }

  ghost function LedgerStep(s: State, a: L.Action): State {
    WithLedger(s, L.Step(s.ledger, a))
  }

  function Landed(reply: O.Reply): Option<nat> {
    match reply
    case Acked(k) => Some(k)
    case Raised(_) => None
    case RaisedButAppended(_, k) => Some(k)
  }

  /** What a send appends to the topic the consumers read. */
  ghost function OutboxStep(s: State, a: O.Action): State {
    if a.Emit? then s
    else if a.Send? && O.Enabled(s.outbox, a) && Landed(a.reply).Some? then
      var e := s.outbox.rows[s.outbox.workers[a.w].batch[0]].event;
      s.(outbox := O.Step(s.outbox, a), sink := C.Step(s.sink, C.Append(Landed(a.reply).value, e)))
    else s.(outbox := O.Step(s.outbox, a))
  }

  ghost function Step(s: State, a: Action): State {
    match a
    case LedgerAct(l) => LedgerStep(s, l)
    case OutboxAct(o) => OutboxStep(s, o)
    case SinkAct(c) => if c.Append? then s else s.(sink := C.Step(s.sink, c))
  }

  ghost function Exec(s: State, actions: seq<Action>): State {
    if actions == [] then s
    else Step(Exec(s, actions[..|actions| - 1]), actions[|actions| - 1])
  }

  ghost predicate Initial(s: State) {
    && L.Initial(s.ledger) && O.Initial(s.outbox) && C.Initial(s.sink)
    && s.sink.log == s.outbox.log && s.sink.c == s.ledger.c
  }

  /** Consumers start at committed offsets; everything else is unrestricted. */
  ghost predicate Disciplined(s: State, actions: seq<Action>) {
    forall n :: 0 <= n < |actions| && actions[n].SinkAct? ==> C.FromCommitted(Exec(s, actions[..n]).sink, actions[n].s)
  }

  // ---------------------------------------------------------------- how the components agree

  ghost predicate RowsAreLedgerRows(rows: O.Rows, outbox: seq<Event>) {
    && (forall e :: e in outbox ==> e.id in rows && rows[e.id].event == e)
    && (forall id :: id in rows ==> rows[id].event.id == id && rows[id].event in outbox)
  }

  ghost predicate TopicIsFromRows(s: State) {
    && s.sink.log == s.outbox.log && s.sink.c == s.ledger.c
    && forall id :: id in s.sink.catalog ==> id in s.outbox.rows && s.sink.catalog[id] == s.outbox.rows[id].event
  }

  ghost predicate Inv(s: State) {
    && LT.Sound(s.ledger) && O.RowsInv(s.outbox) && C.SinkInv(s.sink)
    && RowsAreLedgerRows(s.outbox.rows, s.ledger.tables.outbox)
    && TopicIsFromRows(s)
  }

  /** No new row, or one. */
  ghost predicate OneRowMore(rows: seq<Event>, rows': seq<Event>) {
    rows' == rows || (|rows'| == |rows| + 1 && rows'[..|rows|] == rows
      && forall e :: e in rows ==> e.id != rows'[|rows|].id)
  }

  /** A ledger step leaves the outbox table as it is or adds one fresh row to it. */
  lemma LedgerAddsOneRow(l: L.State, a: L.Action)
    requires LT.Sound(l)
    ensures OneRowMore(l.tables.outbox, L.Step(l, a).tables.outbox)
  {
    L.CommitOrQuiet(l, a);
    assert Sequenced(l.tables);
  }

  lemma EmitKeepsAgreement(rows: O.Rows, outbox: seq<Event>, e: Event, at: int)
    requires RowsAreLedgerRows(rows, outbox) && forall x :: x in outbox ==> x.id != e.id
    ensures e.id !in rows
    ensures RowsAreLedgerRows(rows[e.id := R.NewRow(e, at)], outbox + [e])
  {
    forall id | id in rows ensures id != e.id { assert rows[id].event in outbox; }
  }

  lemma LedgerFrame(l: L.State, a: L.Action)
    requires LT.Sound(l)
    ensures L.Step(l, a).c == l.c
  {
    LT.SoundStep(l, a);
  }

  lemma EmittedRowAgrees(s: State, ledger: L.State, e: Event)
    requires O.RowsInv(s.outbox) && ledger.c == s.ledger.c
    requires RowsAreLedgerRows(s.outbox.rows, s.ledger.tables.outbox) && TopicIsFromRows(s)
    requires ledger.tables.outbox == s.ledger.tables.outbox + [e]
    requires forall x :: x in s.ledger.tables.outbox ==> x.id != e.id
    ensures var s' := s.(ledger := ledger, outbox := O.Step(s.outbox, O.Emit(e)));
      && O.RowsInv(s'.outbox) && RowsAreLedgerRows(s'.outbox.rows, s'.ledger.tables.outbox) && TopicIsFromRows(s')
  {
    EmitKeepsAgreement(s.outbox.rows, s.ledger.tables.outbox, e, s.outbox.clock);
    O.RowsInvStep(s.outbox, O.Emit(e));
  }

  lemma NewLedgerAgrees(s: State, ledger: L.State)
    requires O.RowsInv(s.outbox) && ledger.c == s.ledger.c && OneRowMore(s.ledger.tables.outbox, ledger.tables.outbox)
    requires RowsAreLedgerRows(s.outbox.rows, s.ledger.tables.outbox) && TopicIsFromRows(s)
    ensures var s' := WithLedger(s, ledger);
      && O.RowsInv(s'.outbox) && RowsAreLedgerRows(s'.outbox.rows, s'.ledger.tables.outbox) && TopicIsFromRows(s')
  {
    var rows := s.ledger.tables.outbox;
    if ledger.tables.outbox != rows {
      var e := ledger.tables.outbox[|rows|];
      assert ledger.tables.outbox == rows + [e];
      EmittedRowAgrees(s, ledger, e);
    }
  }

  lemma LedgerKeepsAgreement(s: State, a: L.Action)
    requires LT.Sound(s.ledger) && O.RowsInv(s.outbox)
    requires RowsAreLedgerRows(s.outbox.rows, s.ledger.tables.outbox) && TopicIsFromRows(s)
    ensures var s' := LedgerStep(s, a);
      && O.RowsInv(s'.outbox) && RowsAreLedgerRows(s'.outbox.rows, s'.ledger.tables.outbox) && TopicIsFromRows(s')
  {
    LedgerFrame(s.ledger, a);
    LedgerAddsOneRow(s.ledger, a);
    NewLedgerAgrees(s, L.Step(s.ledger, a));
  }

  lemma SendsKeepSink(s: State, a: O.Action)
    requires O.RowsInv(s.outbox) && C.SinkInv(s.sink) && TopicIsFromRows(s)
    ensures C.SinkInv(OutboxStep(s, a).sink) && C.Grown(s.sink, OutboxStep(s, a).sink)
  {
    if a.Send? && O.Enabled(s.outbox, a) && Landed(a.reply).Some? {
      var e := s.outbox.rows[s.outbox.workers[a.w].batch[0]].event;
      C.SinkInvStep(s.sink, C.Append(Landed(a.reply).value, e));
    }
  }

  lemma OutboxKeepsAgreement(s: State, a: O.Action)
    requires O.RowsInv(s.outbox) && !a.Emit?
    requires RowsAreLedgerRows(s.outbox.rows, s.ledger.tables.outbox) && TopicIsFromRows(s)
    ensures var s' := OutboxStep(s, a);
      && O.RowsInv(s'.outbox) && RowsAreLedgerRows(s'.outbox.rows, s'.ledger.tables.outbox) && TopicIsFromRows(s')
  {
    O.RowsInvStep(s.outbox, a);
    EventsStay(s.outbox, a);
    var s' := OutboxStep(s, a);
    if a.Send? && O.Enabled(s.outbox, a) && Landed(a.reply).Some? {
      assert O.RowOk(s.outbox, s.outbox.workers[a.w].batch[0]);
    }
    RowsFrame(s.outbox.rows, s'.outbox.rows, s.ledger.tables.outbox);
  }

  lemma EventsStay(o: O.State, a: O.Action)
    requires !a.Emit?
    ensures O.Step(o, a).rows.Keys == o.rows.Keys
    ensures forall id :: id in o.rows ==> O.Step(o, a).rows[id].event == o.rows[id].event
    ensures !a.Send? ==> O.Step(o, a).log == o.log
  {
  }

  lemma RowsFrame(rows: O.Rows, rows': O.Rows, outbox: seq<Event>)
    requires RowsAreLedgerRows(rows, outbox) && rows'.Keys == rows.Keys
    requires forall id :: id in rows ==> rows'[id].event == rows[id].event
    ensures RowsAreLedgerRows(rows', outbox)
  {
    assert forall id :: id in rows' ==> id in rows;
  }

  lemma LedgerInvStep(s: State, l: L.Action)
    requires Inv(s)
    ensures Inv(LedgerStep(s, l)) && LedgerStep(s, l).sink == s.sink
  {
    LT.SoundStep(s.ledger, l);
    LedgerKeepsAgreement(s, l);
  }

  lemma OutboxInvStep(s: State, o: O.Action)
    requires Inv(s)
    ensures Inv(OutboxStep(s, o)) && C.Grown(s.sink, OutboxStep(s, o).sink)
  {
    if !o.Emit? {
      OutboxKeepsAgreement(s, o);
      SendsKeepSink(s, o);
    }
  }

  lemma SinkActInvStep(s: State, c: C.Action)
    requires Inv(s) && C.FromCommitted(s.sink, c) && !c.Append?
    ensures Inv(s.(sink := C.Step(s.sink, c))) && C.Grown(s.sink, C.Step(s.sink, c))
  {
    C.SinkInvStep(s.sink, c);
    TopicStays(s, c);
  }

  lemma TopicStays(s: State, c: C.Action)
    requires C.TransactionsOk(s.sink) && TopicIsFromRows(s) && !c.Append?
    ensures TopicIsFromRows(s.(sink := C.Step(s.sink, c)))
  {
    C.StepIsByOne(s.sink, c);
  }

  lemma InvStep(s: State, a: Action)
    requires Inv(s) && (a.SinkAct? ==> C.FromCommitted(s.sink, a.s))
    ensures Inv(Step(s, a)) && C.Grown(s.sink, Step(s, a).sink)
  {
    match a {
      case LedgerAct(l) => LedgerInvStep(s, l);
      case OutboxAct(o) => OutboxInvStep(s, o);
      case SinkAct(c) => if !c.Append? { SinkActInvStep(s, c); }
    }
  }

  lemma {:induction false} InvExec(s: State, actions: seq<Action>)
    requires Inv(s) && Disciplined(s, actions)
    ensures Inv(Exec(s, actions))
  {
    if actions != [] {
      var init, last := actions[..|actions| - 1], actions[|actions| - 1];
      DisciplinedPrefix(s, actions);
      InvExec(s, init);
      InvStep(Exec(s, init), last);
    }
  }

  lemma DisciplinedPrefix(s: State, actions: seq<Action>)
    requires Disciplined(s, actions) && actions != []
    ensures var init, last := actions[..|actions| - 1], actions[|actions| - 1];
      Disciplined(s, init) && (last.SinkAct? ==> C.FromCommitted(Exec(s, init).sink, last.s))
  {
    assert forall n :: 0 <= n < |actions| - 1 ==> actions[..|actions| - 1][..n] == actions[..n];
  }

  lemma InvRun(s0: State, actions: seq<Action>)
    requires Initial(s0) && Disciplined(s0, actions)
    ensures Inv(Exec(s0, actions))
  {
    LT.SoundInitially(s0.ledger);
    InvExec(s0, actions);
  }

  // ---------------------------------------------------------------- the lag of the projection

  /** What the outbox rows not yet processed will still change, or, for transfers, never will. */
  function Outstanding(c: Config, outbox: seq<Event>, processed: set<nat>, x: AccountId): int {
    if outbox == [] then 0
    else
      var last := outbox[|outbox| - 1];
      Outstanding(c, outbox[..|outbox| - 1], processed, x) + if last.id in processed then 0 else Effect(c, last, x)
  }

  function Ids(outbox: seq<Event>): set<nat> {
    set e | e in outbox :: e.id
  }

  ghost predicate Catalogues(c: Config, catalog: map<nat, Event>, processed: set<nat>, outbox: seq<Event>) {
    forall e :: e in outbox ==>
      Emitted(e) && (e.id in processed ==> e.id in catalog && catalog[e.id] == e && Decodes(c, e))
  }

  lemma IdsGrow(outbox: seq<Event>, last: Event, processed: set<nat>)
    requires forall e :: e in outbox ==> e.id != last.id
    ensures last.id !in Ids(outbox)
    ensures processed * Ids(outbox + [last]) == processed * Ids(outbox) + if last.id in processed then {last.id} else {}
  {
    assert forall e :: e in outbox + [last] <==> e in outbox || e == last;
    assert Ids(outbox + [last]) == Ids(outbox) + {last.id};
  }

  lemma ProcessedRowCounts(c: Config, catalog: map<nat, Event>, done: set<nat>, row: Event, processed: set<nat>,
      x: AccountId)
    requires x != c.system && Emitted(row) && row.id !in done
    requires row.id in processed ==> row.id in catalog && catalog[row.id] == row && Decodes(c, row)
    ensures C.SumOver(c, catalog, done + (if row.id in processed then {row.id} else {}), x)
         == C.SumOver(c, catalog, done, x) + if row.id in processed then Effect(c, row, x) else 0
  {
    if row.id in processed {
      C.SumInsert(c, catalog, done, row.id, x);
      ProjectionAgreesWithLedger(c, row, x);
    } else {
      assert done + {} == done;
    }
  }

  lemma {:induction false} ProcessedPlusOutstanding(c: Config, catalog: map<nat, Event>, outbox: seq<Event>,
                                                    processed: set<nat>, x: AccountId)
    requires x != c.system && Catalogues(c, catalog, processed, outbox)
    requires forall i, j :: 0 <= i < j < |outbox| ==> outbox[i].id < outbox[j].id
    ensures C.SumOver(c, catalog, processed * Ids(outbox), x)
      + Outstanding(c, outbox, processed, x) == Effects(c, outbox, x)
  {
    if outbox == [] {
      assert processed * Ids(outbox) == {};
    } else {
      var init, last := outbox[..|outbox| - 1], outbox[|outbox| - 1];
      ProcessedPlusOutstanding(c, catalog, init, processed, x);
      assert outbox == init + [last];
      IdsGrow(init, last, processed);
      ProcessedRowCounts(c, catalog, processed * Ids(init), last, processed, x);
    }
  }

  /** At every moment of every run: ledger balance = projected balance + what the unprocessed rows say. */
  lemma ProjectionLag(s: State, x: AccountId)
    requires Inv(s) && x != s.ledger.c.system
    ensures Balance(s.ledger.tables.entries, x)
         == BalanceIn(s.sink.projection, x) + Outstanding(s.ledger.c, s.ledger.tables.outbox, s.sink.processed, x)
  {
    var c, outbox := s.ledger.c, s.ledger.tables.outbox;
    BooksOf(s.ledger, x);
    ProcessedComesFromOutbox(s);
    assert s.sink.processed * Ids(outbox) == s.sink.processed;
    ProcessedPlusOutstanding(c, s.sink.catalog, outbox, s.sink.processed, x);
    EffectOf(s.sink, x);
  }

  lemma BooksOf(l: L.State, x: AccountId)
    requires LT.Sound(l)
    ensures Balance(l.tables.entries, x) == Effects(l.c, l.tables.outbox, x)
    ensures Sequenced(l.tables)
  {
    assert Tied(l.c, l.tables);
  }

  lemma EffectOf(sink: C.State, x: AccountId)
    requires C.EffectInv(sink)
    ensures BalanceIn(sink.projection, x) == C.SumOver(sink.c, sink.catalog, sink.processed, x)
  {
  }

  lemma ProcessedComesFromOutbox(s: State)
    requires RowsAreLedgerRows(s.outbox.rows, s.ledger.tables.outbox) && TopicIsFromRows(s) && C.ProcessedOk(s.sink)
    requires Sequenced(s.ledger.tables)
    ensures s.sink.processed <= Ids(s.ledger.tables.outbox)
    ensures Catalogues(s.ledger.c, s.sink.catalog, s.sink.processed, s.ledger.tables.outbox)
  {
    forall id | id in s.sink.processed ensures id in Ids(s.ledger.tables.outbox) {
      assert s.sink.catalog[id] == s.outbox.rows[id].event;
    }
  }

  // ---------------------------------------------------------------- convergence

  /** Everything is published, and every partition is consumed to its end. */
  ghost predicate Drained(s: State) {
    && (forall id :: id in s.outbox.rows ==> s.outbox.rows[id].status == R.Published)
    && |s.sink.committed| == |s.sink.log|
    && (forall k :: 0 <= k < |s.sink.log| ==> s.sink.committed[k] == |s.sink.log[k]|)
  }

  lemma DrainedMeansProcessed(s: State)
    requires O.RowsInv(s.outbox) && C.AckSafe(s.sink) && TopicIsFromRows(s) && Drained(s)
    requires RowsAreLedgerRows(s.outbox.rows, s.ledger.tables.outbox)
    ensures forall e :: e in s.ledger.tables.outbox ==> e.id in s.sink.processed
  {
    forall e | e in s.ledger.tables.outbox ensures e.id in s.sink.processed {
      assert O.RowOk(s.outbox, e.id);
      var k :| 0 <= k < |s.outbox.log| && e in s.outbox.log[k];
      var j :| 0 <= j < |s.outbox.log[k]| && s.outbox.log[k][j] == e;
      assert C.DoneBelow(s.sink, k, s.sink.committed[k]);
      assert s.sink.log[k][j] == e;
    }
  }

  lemma {:induction false} NothingOutstanding(c: Config, outbox: seq<Event>, processed: set<nat>, x: AccountId)
    requires forall e :: e in outbox ==> e.id in processed
    ensures Outstanding(c, outbox, processed, x) == 0
  {
    if outbox != [] { NothingOutstanding(c, outbox[..|outbox| - 1], processed, x); }
  }

  lemma DrainedAgrees(s: State, x: AccountId)
    requires Inv(s) && Drained(s) && x != s.ledger.c.system
    ensures BalanceIn(s.sink.projection, x) == Balance(s.ledger.tables.entries, x)
  {
    ProjectionLag(s, x);
    DrainedMeansProcessed(s);
    NothingOutstanding(s.ledger.c, s.ledger.tables.outbox, s.sink.processed, x);
  }

  /**
   * End-to-end convergence: in every run, with crashes, resends, reordering and redelivery, once
   * everything is published and consumed the projection of each customer equals the ledger.
   */
  lemma DrainedPipelineConverges(s0: State, actions: seq<Action>, x: AccountId)
    requires Initial(s0) && Disciplined(s0, actions)
    requires Drained(Exec(s0, actions)) && x != Exec(s0, actions).ledger.c.system
    ensures var s := Exec(s0, actions); BalanceIn(s.sink.projection, x) == Balance(s.ledger.tables.entries, x)
  {
    InvRun(s0, actions);
    DrainedAgrees(Exec(s0, actions), x);
  }

  /**
   * But it is only ever drained while no transfer has been posted: a transfer event cannot be
   * consumed, and neither can anything whose copies all lie behind one.
   */
  lemma TransfersNeverDrain(s0: State, actions: seq<Action>, e: Event)
    requires Initial(s0) && Disciplined(s0, actions)
    requires e in Exec(s0, actions).ledger.tables.outbox && e.kind.TransferPosted?
    ensures var s := Exec(s0, actions);
      && e.id !in s.sink.processed && !Drained(s)
      && |s.sink.committed| == |s.sink.log|
      && (forall k, j :: 0 <= k < |s.sink.log| && 0 <= j < |s.sink.log[k]| && s.sink.log[k][j] == e ==>
            s.sink.committed[k] <= j)
      && (forall id :: id in s.sink.processed ==> C.Reachable(s.sink, id))
  {
    InvRun(s0, actions);
    var s := Exec(s0, actions);
    EmittedRow(s.ledger, e);
    EmittedTransfersDoNotDecode(s.sink.c, e);
    TransferUnprocessed(s, e);
    if Drained(s) { DrainedMeansProcessed(s); }
    forall k, j | 0 <= k < |s.sink.log| && 0 <= j < |s.sink.log[k]| && s.sink.log[k][j] == e
      ensures s.sink.committed[k] <= j {
      C.UndecodableBlocksItsPartition(s.sink, k, j);
    }
    forall id | id in s.sink.processed ensures C.Reachable(s.sink, id) { C.ProcessedIsReachable(s.sink, id); }
  }

  // ---------------------------------------------------------------- the damage of a transfer

  /**
   * What the rows no consumer can reach say of x: the transfers, what lies behind them, and what
   * is not on the topic.
   */
  ghost function Blocked(c: Config, sink: C.State, outbox: seq<Event>, x: AccountId): int {
    if outbox == [] then 0
    else
      var last := outbox[|outbox| - 1];
      Blocked(c, sink, outbox[..|outbox| - 1], x) + if C.Reachable(sink, last.id) then 0 else Effect(c, last, x)
  }

  lemma {:induction false} OutstandingIsBlocked(c: Config, sink: C.State, outbox: seq<Event>, x: AccountId)
    requires forall e :: e in outbox ==> (e.id in sink.processed <==> C.Reachable(sink, e.id))
    ensures Outstanding(c, outbox, sink.processed, x) == Blocked(c, sink, outbox, x)
  {
    if outbox != [] {
      assert outbox[|outbox| - 1] in outbox;
      OutstandingIsBlocked(c, sink, outbox[..|outbox| - 1], x);
    }
  }

  lemma CaughtUpReach(sink: C.State, id: nat)
    requires C.SinkInv(sink) && C.CaughtUp(sink)
    ensures id in sink.processed <==> C.Reachable(sink, id)
  {
    if id in sink.processed { C.ProcessedIsReachable(sink, id); }
    if C.Reachable(sink, id) { C.CaughtUpProcessesReachable(sink, id); }
  }

  /**
   * Once every partition is read up to its first undecodable message, a customer's projection is
   * short of the ledger by exactly what the unreachable rows say: transfers, and deposits and
   * withdrawals all of whose copies lie behind one. It agrees exactly when these cancel out.
   */
  lemma ProjectionMissesWhatIsBlocked(s0: State, actions: seq<Action>, x: AccountId)
    requires Initial(s0) && Disciplined(s0, actions) && x != Exec(s0, actions).ledger.c.system
    requires C.CaughtUp(Exec(s0, actions).sink)
    ensures var s := Exec(s0, actions); var blocked := Blocked(s.ledger.c, s.sink, s.ledger.tables.outbox, x);
      && Balance(s.ledger.tables.entries, x) == BalanceIn(s.sink.projection, x) + blocked
      && (BalanceIn(s.sink.projection, x) == Balance(s.ledger.tables.entries, x) <==> blocked == 0)
  {
    InvRun(s0, actions);
    var s := Exec(s0, actions);
    ProjectionLag(s, x);
    forall e | e in s.ledger.tables.outbox ensures e.id in s.sink.processed <==> C.Reachable(s.sink, e.id) {
      CaughtUpReach(s.sink, e.id);
    }
    OutstandingIsBlocked(s.ledger.c, s.sink, s.ledger.tables.outbox, x);
  }

  /**
   * And it stays so: an event shut out of every partition by undecodable messages is projected in
   * no continuation, whatever is posted, resent, redelivered or restarted.
   */
  lemma {:induction false} ShutOutForGood(s: State, actions: seq<Action>, id: nat)
    requires Inv(s) && Disciplined(s, actions) && C.ShutOut(s.sink, id)
    ensures Inv(Exec(s, actions)) && C.ShutOut(Exec(s, actions).sink, id) && id !in Exec(s, actions).sink.processed
  {
    if actions == [] {
      C.ShutOutIsUnprocessed(s.sink, id);
    } else {
      var init, last := actions[..|actions| - 1], actions[|actions| - 1];
      DisciplinedPrefix(s, actions);
      ShutOutForGood(s, init, id);
      InvStep(Exec(s, init), last);
      C.ShutOutStaysOut(Exec(s, init).sink, Step(Exec(s, init), last).sink, id);
      C.ShutOutIsUnprocessed(Step(Exec(s, init), last).sink, id);
    }
  }

  lemma EmittedRow(l: L.State, e: Event)
    requires LT.Sound(l) && e in l.tables.outbox
    ensures Emitted(e)
  {
    assert Sequenced(l.tables);
  }

  lemma TransferUnprocessed(s: State, e: Event)
    requires RowsAreLedgerRows(s.outbox.rows, s.ledger.tables.outbox) && TopicIsFromRows(s) && C.ProcessedOk(s.sink)
    requires e in s.ledger.tables.outbox && !Decodes(s.sink.c, e)
    ensures e.id !in s.sink.processed
  {
    forall id | id in s.sink.processed ensures id != e.id { assert s.sink.catalog[id] == s.outbox.rows[id].event; }
  }
}
