/**
 * The pipeline can always drain when nothing stands in its way, and what a transfer does when
 * something does. From any reachable state with an idle worker, a consumer and a partition, rows
 * that are neither FAILED nor transfers can all be published and consumed without a crash; and a
 * deposit sent behind a transfer on a single partition is lost to the projection for good.
 */
module PipelineDrain {
  import opened Prelude
  import opened LedgerTables
  import R = OutboxRows
  import O = OutboxMachine
  import opened Projections
  import C = ConsumerMachine
  import D = ConsumerDrain
  import opened Pipeline

  // ---------------------------------------------------------------- benign schedules

  /** Workers and consumers do their work; nobody crashes, and the ledger does nothing. */
  predicate Benign(a: Action) {
    match a
    case LedgerAct(_) => false
    case OutboxAct(o) => !o.Crash? && !o.Emit?
    case SinkAct(c) => D.Benign(c)
  }

  /** The schedule is benign, starts readers at committed offsets, and ends in s'. */
  ghost predicate Leads(s: State, actions: seq<Action>, s': State) {
    Exec(s, actions) == s' && Disciplined(s, actions) && forall n :: 0 <= n < |actions| ==> Benign(actions[n])
  }

  lemma LeadsNowhere(s: State)
    ensures Leads(s, [], s)
  {
  }

  lemma LeadsOneMore(s0: State, before: seq<Action>, s: State, a: Action)
    requires Leads(s0, before, s) && Benign(a) && (a.SinkAct? ==> C.FromCommitted(s.sink, a.s))
    ensures Leads(s0, before + [a], Step(s, a))
  {
    var all := before + [a];
    assert all[..|before|] == before;
    forall n | 0 <= n < |all| && all[n].SinkAct? ensures C.FromCommitted(Exec(s0, all[..n]).sink, all[n].s) {
      assert n < |before| ==> all[..n] == before[..n];
    }
  }

  lemma GoOn(s0: State, before: seq<Action>, s: State, a: Action)
    requires Leads(s0, before, s) && Inv(s) && Benign(a) && (a.SinkAct? ==> C.FromCommitted(s.sink, a.s))
    ensures Leads(s0, before + [a], Step(s, a)) && Inv(Step(s, a))
  {
    LeadsOneMore(s0, before, s, a);
    InvStep(s, a);
  }

  // ---------------------------------------------------------------- publishing one row

  /** Late enough for a claim to be stale and a retry to be due. */
  function Later(clock: int, r: R.Row): int {
    var t :=
      if r.claimedAt.Some? && clock < r.claimedAt.value + R.CLAIM_TIMEOUT then r.claimedAt.value + R.CLAIM_TIMEOUT
      else clock;
    if r.nextRetryAt.Some? && t < r.nextRetryAt.value then r.nextRetryAt.value else t
  }

  /** The row once it has been recovered if need be, claimed, sent and marked, all at t. */
  function PublishedAt(r: R.Row, t: int): R.Row {
    R.MarkedPublished(R.Claimed(Freed(r), t), t)
  }

  function Freed(r: R.Row): R.Row {
    if r.status == R.Processing then R.Recovered(r) else r
  }

  /** What worker w does to publish row id at time t. */
  function PublishRow(o: O.State, w: nat, id: nat): seq<O.Action>
    requires id in o.rows
  {
    var t := Later(o.clock, o.rows[id]);
    [O.Tick(t - o.clock), O.Recover(w, if o.rows[id].status == R.Processing then [id] else [], t),
     O.Claim(w, [id], t), O.Send(w, O.Acked(0)), O.Mark(w, t)]
  }

  function RowPublished(o: O.State, id: nat): O.State
    requires id in o.rows
  {
    var t := Later(o.clock, o.rows[id]);
    o.(rows := o.rows[id := PublishedAt(o.rows[id], t)], log := O.Append(o.log, 0, o.rows[id].event), clock := t)
  }

  /** An idle worker, somewhere to send to, and a row that is neither published nor failed. */
  ghost predicate CanPublish(o: O.State, w: nat, id: nat) {
    && O.RowsInv(o) && w < |o.workers| && o.workers[w].Idle? && |o.log| > 0
    && id in o.rows && !R.Terminal(o.rows[id])
  }

  /** Ticked, recovered and claimed. */
  function Ready(o: O.State, w: nat, id: nat): O.State
    requires id in o.rows && w < |o.workers|
  {
    var t := Later(o.clock, o.rows[id]);
    o.(clock := t, rows := o.rows[id := R.Claimed(Freed(o.rows[id]), t)], workers := o.workers[w := O.Holding([id], t)])
  }

  lemma ClaimRow(o: O.State, w: nat, id: nat)
    requires CanPublish(o, w, id)
    ensures var a := PublishRow(o, w, id);
      O.Step(O.Step(O.Step(o, a[0]), a[1]), a[2]) == Ready(o, w, id)
  {
    var a, t, r := PublishRow(o, w, id), Later(o.clock, o.rows[id]), o.rows[id];
    assert O.RowOk(o, id);
    var o1 := o.(clock := t);
    assert O.Step(o, a[0]) == o1;
    var o2 := o1.(rows := o.rows[id := Freed(r)], workers := o.workers[w := O.Swept]);
    assert O.Step(o1, a[1]) == o2;
    assert o2.workers[w := O.Holding([id], t)] == o.workers[w := O.Holding([id], t)];
    assert O.ClaimAll(o2.rows, [id], t) == o.rows[id := R.Claimed(Freed(r), t)];
  }

  /** Sent and not yet marked. */
  function SentRow(o: O.State, w: nat, id: nat): O.State
    requires id in o.rows && w < |o.workers|
  {
    var t := Later(o.clock, o.rows[id]);
    Ready(o, w, id).(log := O.Append(o.log, 0, o.rows[id].event), workers := o.workers[w := O.Sent([id], t)])
  }

  lemma SendRow(o: O.State, w: nat, id: nat)
    requires CanPublish(o, w, id)
    ensures O.Enabled(Ready(o, w, id), O.Send(w, O.Acked(0)))
    ensures Ready(o, w, id).workers[w].batch == [id] && Ready(o, w, id).rows[id].event == o.rows[id].event
    ensures O.Step(Ready(o, w, id), O.Send(w, O.Acked(0))) == SentRow(o, w, id)
  {
    var t := Later(o.clock, o.rows[id]);
    assert Ready(o, w, id).workers[w := O.Sent([id], t)] == o.workers[w := O.Sent([id], t)];
  }

  lemma MarkSent(o: O.State, w: nat, id: nat)
    requires CanPublish(o, w, id)
    ensures O.Step(SentRow(o, w, id), O.Mark(w, Later(o.clock, o.rows[id]))) == RowPublished(o, id)
  {
    var t := Later(o.clock, o.rows[id]);
    assert SentRow(o, w, id).workers[w := O.Idle] == o.workers;
    assert SentRow(o, w, id).rows[id := PublishedAt(o.rows[id], t)] == o.rows[id := PublishedAt(o.rows[id], t)];
  }

  /** The consumers see the message; nothing else of theirs changes. */
  function WithMessage(sink: C.State, e: Event): C.State {
    C.Step(sink, C.Append(0, e))
  }

  function AfterPublishing(s: State, id: nat): State
    requires id in s.outbox.rows
  {
    s.(outbox := RowPublished(s.outbox, id), sink := WithMessage(s.sink, s.outbox.rows[id].event))
  }

  /** Five benign steps of the pipeline publish the row. */
  lemma PublishOne(s0: State, before: seq<Action>, s: State, w: nat, id: nat) returns (actions: seq<Action>)
    requires Leads(s0, before, s) && Inv(s) && CanPublish(s.outbox, w, id)
    ensures Leads(s0, actions, AfterPublishing(s, id)) && Inv(AfterPublishing(s, id))
  {
    var a := PublishRow(s.outbox, w, id);
    ClaimRow(s.outbox, w, id);
    SendRow(s.outbox, w, id);
    MarkSent(s.outbox, w, id);
    var s1 := s.(outbox := O.Step(s.outbox, a[0]));
    GoOn(s0, before, s, OutboxAct(a[0]));
    var s2 := s.(outbox := O.Step(s1.outbox, a[1]));
    GoOn(s0, before + [OutboxAct(a[0])], s1, OutboxAct(a[1]));
    var s3 := s.(outbox := Ready(s.outbox, w, id));
    var three := before + [OutboxAct(a[0])] + [OutboxAct(a[1])] + [OutboxAct(a[2])];
    GoOn(s0, before + [OutboxAct(a[0])] + [OutboxAct(a[1])], s2, OutboxAct(a[2]));
    actions := SendAndMark(s0, three, s3, s.outbox, w, id);
  }

  lemma SendReachesSink(s: State, o: O.State, w: nat, id: nat)
    requires CanPublish(o, w, id) && s.outbox == Ready(o, w, id)
    ensures OutboxStep(s, O.Send(w, O.Acked(0))) ==
      s.(outbox := SentRow(o, w, id), sink := WithMessage(s.sink, o.rows[id].event))
  {
    SendRow(o, w, id);
  }

  lemma MarkStaysInOutbox(s: State, o: O.State, w: nat, id: nat)
    requires CanPublish(o, w, id) && s.outbox == SentRow(o, w, id)
    ensures OutboxStep(s, O.Mark(w, Later(o.clock, o.rows[id]))) == s.(outbox := RowPublished(o, id))
  {
    MarkSent(o, w, id);
  }

  lemma SendAndMark(s0: State, before: seq<Action>, s: State, o: O.State, w: nat, id: nat)
    returns (actions: seq<Action>)
    requires Leads(s0, before, s) && Inv(s) && CanPublish(o, w, id) && s.outbox == Ready(o, w, id)
    ensures var s' := s.(outbox := RowPublished(o, id), sink := WithMessage(s.sink, o.rows[id].event));
      Leads(s0, actions, s') && Inv(s')
  {
    var send, mark := O.Send(w, O.Acked(0)), O.Mark(w, Later(o.clock, o.rows[id]));
    SendReachesSink(s, o, w, id);
    GoOn(s0, before, s, OutboxAct(send));
    var s1 := Step(s, OutboxAct(send));
    MarkStaysInOutbox(s1, o, w, id);
    GoOn(s0, before + [OutboxAct(send)], s1, OutboxAct(mark));
    actions := before + [OutboxAct(send)] + [OutboxAct(mark)];
  }

  // ---------------------------------------------------------------- publishing all of them

  function Unpublished(rows: O.Rows): set<nat> {
    set id | id in rows && rows[id].status != R.Published
  }

  predicate NoneFailed(rows: O.Rows) {
    forall id :: id in rows ==> rows[id].status != R.Failed
  }

  lemma OneLess(o: O.State, w: nat, id: nat)
    requires CanPublish(o, w, id) && NoneFailed(o.rows)
    ensures var o' := RowPublished(o, id);
      && |Unpublished(o'.rows)| < |Unpublished(o.rows)| && NoneFailed(o'.rows)
      && w < |o'.workers| && o'.workers[w].Idle? && |o'.log| > 0
  {
    assert Unpublished(RowPublished(o, id).rows) == Unpublished(o.rows) - {id};
    assert id in Unpublished(o.rows);
  }

  lemma ConsumersStay(s: State, id: nat)
    requires id in s.outbox.rows
    ensures AfterPublishing(s, id).ledger == s.ledger
    ensures |AfterPublishing(s, id).sink.consumers| == |s.sink.consumers|
  {
  }

  lemma PickRow(o: O.State, w: nat) returns (id: nat)
    requires O.RowsInv(o) && w < |o.workers| && o.workers[w].Idle? && |o.log| > 0
    requires NoneFailed(o.rows) && Unpublished(o.rows) != {}
    ensures CanPublish(o, w, id)
  {
    id :| id in Unpublished(o.rows);
  }

  /** Worker w is free to publish, and no row has failed. */
  ghost predicate Publishing(s: State, w: nat) {
    && Inv(s) && NoneFailed(s.outbox.rows)
    && w < |s.outbox.workers| && s.outbox.workers[w].Idle? && |s.outbox.log| > 0
  }

  lemma PublishNext(s0: State, before: seq<Action>, s: State, w: nat) returns (actions: seq<Action>, s': State)
    requires Leads(s0, before, s) && Publishing(s, w) && Unpublished(s.outbox.rows) != {}
    ensures Leads(s0, actions, s') && Publishing(s', w)
    ensures s'.ledger == s.ledger && |s'.sink.consumers| == |s.sink.consumers|
    ensures |Unpublished(s'.outbox.rows)| < |Unpublished(s.outbox.rows)|
  {
    var id := PickRow(s.outbox, w);
    OneLess(s.outbox, w, id);
    ConsumersStay(s, id);
    actions := PublishOne(s0, before, s, w, id);
    s' := AfterPublishing(s, id);
  }

  lemma PublishAll(s0: State, before: seq<Action>, s: State, w: nat) returns (actions: seq<Action>, s': State)
    requires Leads(s0, before, s) && Publishing(s, w)
    ensures Leads(s0, actions, s') && Inv(s') && s'.ledger == s.ledger && |s'.sink.consumers| == |s.sink.consumers|
    ensures Unpublished(s'.outbox.rows) == {}
    decreases |Unpublished(s.outbox.rows)|
  {
    if Unpublished(s.outbox.rows) == {} {
      actions, s' := before, s;
    } else {
      var more, s1 := PublishNext(s0, before, s, w);
      actions, s' := PublishAll(s0, more, s1, w);
    }
  }

  // ---------------------------------------------------------------- consuming everything

  lemma {:induction false} ConsumersLead(s0: State, before: seq<Action>, s: State, cs: seq<C.Action>, sink: C.State)
    returns (actions: seq<Action>)
    requires Leads(s0, before, s) && Inv(s) && D.Leads(s.sink, cs, sink)
    ensures Leads(s0, actions, s.(sink := sink)) && Inv(s.(sink := sink))
  {
    if cs == [] {
      actions := before;
    } else {
      var init, last := cs[..|cs| - 1], cs[|cs| - 1];
      var mid := C.Exec(s.sink, init);
      PrefixLeads(s.sink, cs);
      var most := ConsumersLead(s0, before, s, init, mid);
      GoOn(s0, most, s.(sink := mid), SinkAct(last));
      actions := most + [SinkAct(last)];
    }
  }

  lemma PrefixLeads(sink: C.State, cs: seq<C.Action>)
    requires cs != [] && D.Leads(sink, cs, C.Exec(sink, cs))
    ensures var init, last := cs[..|cs| - 1], cs[|cs| - 1];
      D.Leads(sink, init, C.Exec(sink, init)) && D.Benign(last) && C.FromCommitted(C.Exec(sink, init), last)
  {
    assert forall n :: 0 <= n < |cs| - 1 ==> cs[..|cs| - 1][..n] == cs[..n];
  }

  predicate NoTransfers(outbox: seq<Event>) {
    forall e :: e in outbox ==> !e.kind.TransferPosted?
  }

  lemma EverythingDecodes(s: State)
    requires Inv(s) && NoTransfers(s.ledger.tables.outbox)
    ensures D.AllDecode(s.sink)
  {
    forall k, j | 0 <= k < |s.sink.log| && 0 <= j < |s.sink.log[k]| ensures Decodes(s.sink.c, s.sink.log[k][j]) {
      var e := s.sink.log[k][j];
      assert e.id in s.sink.catalog && s.sink.catalog[e.id] == e;
      assert e in s.ledger.tables.outbox;
      EmittedRow(s.ledger, e);
      EmittedTransfersDoNotDecode(s.sink.c, e);
    }
  }

  // ---------------------------------------------------------------- the pipeline can drain

  /**
   * With no transfer posted and no row FAILED, one idle worker and one consumer can always bring
   * the pipeline to rest, whatever the other workers and the consumers have in hand: a schedule
   * without crashes publishes and consumes everything, and every customer's projection then
   * equals the ledger, which has not moved.
   */
  lemma PipelineCanDrain(s: State, w: nat) returns (actions: seq<Action>, s': State)
    requires Inv(s) && w < |s.outbox.workers| && s.outbox.workers[w].Idle?
    requires |s.outbox.log| > 0 && |s.sink.consumers| > 0
    requires NoneFailed(s.outbox.rows) && NoTransfers(s.ledger.tables.outbox)
    ensures Leads(s, actions, s') && s'.ledger == s.ledger && Drained(s')
    ensures forall x: AccountId :: x != s.ledger.c.system ==>
      BalanceIn(s'.sink.projection, x) == Balance(s.ledger.tables.entries, x)
  {
    LeadsNowhere(s);
    var published, s1 := PublishAll(s, [], s, w);
    EverythingDecodes(s1);
    var cs, sink := D.EverythingCanBeConsumed(s1.sink);
    actions := ConsumersLead(s, published, s1, cs, sink);
    assert forall id :: id in s1.outbox.rows ==> id !in Unpublished(s1.outbox.rows);
    s' := s1.(sink := sink);
    forall x: AccountId | x != s.ledger.c.system
      ensures BalanceIn(s'.sink.projection, x) == Balance(s.ledger.tables.entries, x)
    {
      DrainedAgrees(s', x);
    }
  }

  /** In particular from every reachable state. */
  lemma ReachableStatesCanDrain(s0: State, history: seq<Action>, w: nat) returns (actions: seq<Action>, s': State)
    requires Initial(s0) && Disciplined(s0, history)
    requires var s := Exec(s0, history);
      && w < |s.outbox.workers| && s.outbox.workers[w].Idle? && |s.outbox.log| > 0 && |s.sink.consumers| > 0
      && NoneFailed(s.outbox.rows) && NoTransfers(s.ledger.tables.outbox)
    ensures Leads(Exec(s0, history), actions, s') && s'.ledger == Exec(s0, history).ledger && Drained(s')
  {
    InvRun(s0, history);
    actions, s' := PipelineCanDrain(Exec(s0, history), w);
  }

  // ---------------------------------------------------------------- and what a transfer does

  lemma CatalogAgrees(s: State, id: nat)
    requires Inv(s) && id in s.outbox.rows
    ensures var e := s.outbox.rows[id].event; e.id in s.sink.catalog ==> s.sink.catalog[e.id] == e
    ensures |s.sink.log| == |s.outbox.log|
  {
    assert O.RowOk(s.outbox, id);
  }

  lemma MessageIsAppended(sink: C.State, e: Event)
    requires |sink.log| == 1 && (e.id in sink.catalog ==> sink.catalog[e.id] == e)
    ensures WithMessage(sink, e).log == [sink.log[0] + [e]] && WithMessage(sink, e).c == sink.c
  {
  }

  lemma TransferDoesNotDecode(s: State, id: nat)
    requires Inv(s) && id in s.outbox.rows && s.outbox.rows[id].event.kind.TransferPosted?
    ensures !Decodes(s.sink.c, s.outbox.rows[id].event)
  {
    var e := s.outbox.rows[id].event;
    assert e in s.ledger.tables.outbox;
    EmittedRow(s.ledger, e);
    EmittedTransfersDoNotDecode(s.sink.c, e);
  }

  /** No copy of the event is on the one partition. */
  ghost predicate NotSent(sink: C.State, id: nat) {
    |sink.log| == 1 && forall j :: 0 <= j < |sink.log[0]| ==> sink.log[0][j].id != id
  }

  lemma BehindIsShutOut(sink: C.State, before: seq<Event>, e: Event, id: nat)
    requires |sink.log| == 1 && before + [e] <= sink.log[0] && !Decodes(sink.c, e)
    requires forall j :: 0 <= j < |before| ==> before[j].id != id
    ensures C.ShutOut(sink, id)
  {
    assert sink.log[0][|before|] == e;
    assert C.Bars(sink, 0, |before|, id);
    assert C.BarredIn(sink, 0, id);
  }

  lemma BothAppended(s: State, transfer: nat, other: nat)
    requires Inv(s) && |s.outbox.log| == 1 && transfer in s.outbox.rows && other in s.outbox.rows
    requires s.outbox.rows[transfer].event.kind.TransferPosted? && NotSent(s.sink, other)
    requires Inv(AfterPublishing(s, transfer)) && other in AfterPublishing(s, transfer).outbox.rows
    ensures C.ShutOut(AfterPublishing(AfterPublishing(s, transfer), other).sink, other)
  {
    var s1, e := AfterPublishing(s, transfer), s.outbox.rows[transfer].event;
    CatalogAgrees(s, transfer);
    MessageIsAppended(s.sink, e);
    CatalogAgrees(s1, other);
    MessageIsAppended(s1.sink, s1.outbox.rows[other].event);
    TransferDoesNotDecode(s, transfer);
    BehindIsShutOut(AfterPublishing(s1, other).sink, s.sink.log[0], e, other);
  }

  /**
   * A deposit or withdrawal published after a transfer on a single partition, by a worker that
   * does nothing wrong: both rows are PUBLISHED, and no continuation of any kind projects it.
   */
  lemma LostBehindATransfer(s: State, w: nat, transfer: nat, other: nat)
    returns (actions: seq<Action>, s': State)
    requires Inv(s) && |s.outbox.log| == 1 && CanPublish(s.outbox, w, transfer) && CanPublish(s.outbox, w, other)
    requires transfer != other && s.outbox.rows[transfer].event.kind.TransferPosted?
    requires NotSent(s.sink, other)
    ensures Leads(s, actions, s') && s'.ledger == s.ledger
    ensures transfer in s'.outbox.rows && s'.outbox.rows[transfer].status == R.Published
    ensures other in s'.outbox.rows && s'.outbox.rows[other].status == R.Published
    ensures Inv(s') && C.ShutOut(s'.sink, other)
    ensures forall more :: Disciplined(s', more) ==> other !in Exec(s', more).sink.processed
  {
    var s1;
    actions, s1 := PublishBoth(s, w, transfer, other);
    s' := AfterPublishing(s1, other);
    BothAppended(s, transfer, other);
    forall more | Disciplined(s', more) ensures other !in Exec(s', more).sink.processed {
      ShutOutForGood(s', more, other);
    }
  }

  lemma PublishBoth(s: State, w: nat, first: nat, second: nat) returns (actions: seq<Action>, s1: State)
    requires Inv(s) && CanPublish(s.outbox, w, first) && CanPublish(s.outbox, w, second) && first != second
    ensures s1 == AfterPublishing(s, first) && Inv(s1) && second in s1.outbox.rows
    ensures Inv(AfterPublishing(s1, second)) && Leads(s, actions, AfterPublishing(s1, second))
  {
    LeadsNowhere(s);
    var once := PublishOne(s, [], s, w, first);
    s1 := AfterPublishing(s, first);
    StillPublishable(s.outbox, w, first, second);
    actions := PublishOne(s, once, s1, w, second);
  }

  lemma StillPublishable(o: O.State, w: nat, id: nat, other: nat)
    requires CanPublish(o, w, id) && CanPublish(o, w, other) && id != other && O.RowsInv(RowPublished(o, id))
    ensures CanPublish(RowPublished(o, id), w, other)
  {
  }
}
