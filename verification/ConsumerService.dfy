/**
 * LedgerEventConsumer as it is written: registration and upserts in one session, commit, then
 * the offset; proved against a function of the message, and that against the consumer machine.
 */
module ConsumerService {
  import opened Prelude
  import opened Money
  import opened LedgerTables
  import opened Projections
  import opened ConsumerMachine

  /** A PostgreSQL session: the committed tables, and the same tables as its open transaction sees them. */
  class Session {
    var processed: set<nat>
    var projection: Balances
    var txProcessed: set<nat>
    var txProjection: Balances

    predicate Clean()
      reads this
    {
      txProcessed == processed && txProjection == projection
    }

    method Rollback()
      modifies this
      ensures Clean() && processed == old(processed) && projection == old(projection)
    {
      txProcessed, txProjection := processed, projection;
    }

    method Commit()
      modifies this
      ensures Clean() && processed == old(txProcessed) && projection == old(txProjection)
    {
      processed, projection := txProcessed, txProjection;
    }

    /** Insert the id and flush; a unique violation rolls back and answers false. */
    method MarkEventProcessed(id: nat) returns (registered: bool)
      requires Clean()
      modifies this
      ensures registered <==> id !in old(processed)
      ensures processed == old(processed) && projection == old(projection) && txProjection == old(projection)
      ensures txProcessed == if registered then old(processed) + {id} else old(processed)
    {
      if id in txProcessed {
        Rollback();
        return false;
      }
      txProcessed := txProcessed + {id};
      return true;
    }

    method ApplyDelta(account: AccountId, delta: int)
      modifies this`txProjection
      ensures txProjection == Upsert(old(txProjection), Change(account, delta))
    {
      if account in txProjection {
        txProjection := txProjection[account := txProjection[account] + delta];
      } else {
        txProjection := txProjection[account := delta];
      }
    }

    /** Branch on the event type; a missing payload key raises before anything is written. */
    method ApplyBalanceProjection(c: Config, e: Event) returns (raised: bool)
      modifies this`txProjection
      ensures raised <==> !Decodes(c, e)
      ensures txProjection == if raised then old(txProjection) else ApplyAll(old(txProjection), Changes(c, e).value)
    {
      raised := false;
      var amount := AmountOf(e.payload);
      if e.kind.DepositPosted? || e.kind.WithdrawalPosted? {
        var account := Party(e.payload, KeyAccountId);
        if account.None? || amount.None? { return true; }
        var v := c.decimal(amount.value);
        ghost var change := Change(account.value, if e.kind.DepositPosted? then RoundCents(v) else RoundCents(-v));
        assert [change][..0] == [];
        assert ApplyAll(txProjection, [change]) == Upsert(ApplyAll(txProjection, []), change);
        if e.kind.DepositPosted? {
          ApplyDelta(account.value, RoundCents(v));
        } else {
          ApplyDelta(account.value, RoundCents(-v));
        }
      } else if e.kind.TransferPosted? {
        var source, destination := Party(e.payload, KeySourceAccountId), Party(e.payload, KeyDestinationAccountId);
        if source.None? || destination.None? || amount.None? { return true; }
        var v := c.decimal(amount.value);
        ghost var debit, credit := Change(source.value, RoundCents(-v)), Change(destination.value, RoundCents(v));
        assert [debit, credit][..1] == [debit] && [debit][..0] == [];
        assert ApplyAll(txProjection, [debit]) == Upsert(ApplyAll(txProjection, []), debit);
        ApplyDelta(source.value, RoundCents(-v));
        ApplyDelta(destination.value, RoundCents(v));
      }
    }
  }

  /** How process_message ends. */
  datatype Ending = Returned | Raised

  /** Effect of one message on the tables and the partition's offset. */
  datatype Effects = Effects(processed: set<nat>, projection: Balances, acknowledge: bool)

  function EffectOf(c: Config, processed: set<nat>, projection: Balances, e: Event): Effects {
    if e.id in processed then Effects(processed, projection, true)
    else if !Decodes(c, e) then Effects(processed, projection, false)
    else Effects(processed + {e.id}, ApplyAll(projection, Changes(c, e).value), true)
  }

  class LedgerEventConsumer {
    const c: Config
    const db: Session
    var committed: map<nat, nat>  // committed offset by partition
    var running: bool

    constructor (c: Config, db: Session)
      ensures this.c == c && this.db == db && committed == map[] && !running
    {
      this.c, this.db, this.committed, this.running := c, db, map[], false;
    }

    /** Offsets name the next message to read; the commit itself may fail. */
    method CommitMessageOffset(k: nat, j: nat, reachable: bool) returns (ending: Ending)
      modifies this`committed
      ensures ending == if reachable then Returned else Raised
      ensures committed == if reachable then old(committed)[k := j + 1] else old(committed)
    {
      if !reachable { return Raised; }
      committed := committed[k := j + 1];
      return Returned;
    }

    method ProcessMessage(k: nat, j: nat, e: Event, reachable: bool) returns (ending: Ending)
      requires db.Clean()
      modifies this`committed, db
      ensures db.Clean()
      ensures var eff := EffectOf(c, old(db.processed), old(db.projection), e);
        && db.processed == eff.processed && db.projection == eff.projection
        && committed == (if eff.acknowledge && reachable then old(committed)[k := j + 1] else old(committed))
        && ending == (if eff.acknowledge && reachable then Returned else Raised)
    {
      var registered := db.MarkEventProcessed(e.id);
      if !registered {
        db.Rollback();
        ending := CommitMessageOffset(k, j, reachable);
        return;
      }
      var raised := db.ApplyBalanceProjection(c, e);
      if raised {
        db.Rollback();
        return Raised;
      }
      db.Commit();
      ending := CommitMessageOffset(k, j, reachable);
    }

    /**
     * Messages of all assigned partitions, as they come. It ends at the first that raises, by its
     * payload or by its offset commit, or when stop() comes before message `stopAt`.
     */
    method Run(messages: seq<Delivery>, stopAt: nat, reachable: nat -> bool) returns (done: nat, ending: Ending)
      requires db.Clean()
      modifies this`committed, this`running, db
      ensures db.Clean() && !running && done <= |messages|
      ensures ending == Returned ==> done == |messages| || done == stopAt
      ensures ending == Raised ==> done < |messages|
      ensures var seen := if ending == Raised then done + 1 else done;
        var eff := EffectsOf(c, old(db.processed), old(db.projection), messages[..seen]);
        && db.processed == eff.processed && db.projection == eff.projection
        && (ending == Raised ==> !(eff.acknowledge && reachable(done)))
      ensures committed == CommittedAfter(old(committed), messages[..done])
      ensures forall i :: 0 <= i < done ==> messages[i].event.id in db.processed
    {
      running := true;
      done := 0;
      ending := Returned;
      while done < |messages|
        invariant db.Clean() && done <= |messages| && running && ending == Returned
        invariant db.processed == EffectsOf(c, old(db.processed), old(db.projection), messages[..done]).processed
        invariant db.projection == EffectsOf(c, old(db.processed), old(db.projection), messages[..done]).projection
        invariant committed == CommittedAfter(old(committed), messages[..done])
        invariant forall i :: 0 <= i < done ==> messages[i].event.id in db.processed
      {
        if done == stopAt { running := false; }
        if !running { break; }
        assert messages[..done + 1][..done] == messages[..done];
        var m := messages[done];
        ending := ProcessMessage(m.partition, m.offset, m.event, reachable(done));
        if ending == Raised { break; }
        done := done + 1;
      }
      running := false;
    }
  }

  /** A message as Kafka delivers it. */
  datatype Delivery = Delivery(partition: nat, offset: nat, event: Event)

  function EffectsOf(c: Config, processed: set<nat>, projection: Balances, messages: seq<Delivery>): Effects {
    if messages == [] then Effects(processed, projection, true)
    else
      var before := EffectsOf(c, processed, projection, messages[..|messages| - 1]);
      EffectOf(c, before.processed, before.projection, messages[|messages| - 1].event)
  }

  function CommittedAfter(committed: map<nat, nat>, messages: seq<Delivery>): map<nat, nat> {
    if messages == [] then committed
    else
      var last := messages[|messages| - 1];
      CommittedAfter(committed, messages[..|messages| - 1])[last.partition := last.offset + 1]
  }

  /** Each partition's offset is the one after its own last message; the others are as before. */
  lemma {:induction false} CommittedByPartition(committed: map<nat, nat>, messages: seq<Delivery>, k: nat)
    ensures var after := CommittedAfter(committed, messages);
      if exists i :: 0 <= i < |messages| && messages[i].partition == k then
        exists i :: 0 <= i < |messages| && LastOf(messages, i, k) && k in after && after[k] == messages[i].offset + 1
      else (k in after <==> k in committed) && (k in after ==> after[k] == committed[k])
  {
    if messages != [] {
      var n := |messages| - 1;
      var init := messages[..n];
      CommittedByPartition(committed, init, k);
      if messages[n].partition == k {
        assert LastOf(messages, n, k);
      } else if exists i :: 0 <= i < n && messages[i].partition == k {
        var i :| 0 <= i < n && messages[i].partition == k;
        assert init[i].partition == k;
        var last :| 0 <= last < n && LastOf(init, last, k)
          && CommittedAfter(committed, init)[k] == init[last].offset + 1;
        assert LastOf(messages, last, k);
      } else {
        assert forall i :: 0 <= i < n ==> init[i] == messages[i];
      }
    }
  }

  ghost predicate LastOf(messages: seq<Delivery>, i: nat, k: nat)
    requires i < |messages|
  {
    messages[i].partition == k && forall j :: i < j < |messages| ==> messages[j].partition != k
  }

  // ---------------------------------------------------------------- the method is a run of the machine

  predicate HasMessage(s: State, i: nat) {
    && i < |s.consumers| && s.consumers[i].pc.Got? && Valid(s, s.consumers[i].pc.k, s.consumers[i].pc.j)
    && s.consumers[i].pc.k < |s.committed| && Message(s, s.consumers[i].pc).id !in s.held
  }

  function FourSteps(s: State, i: nat, reachable: bool): State {
    Step(Step(Step(Step(s, Register(i)), Apply(i)), Commit(i)), Ack(i, reachable))
  }

  ghost predicate EndsAs(s: State, s': State, i: nat, eff: Effects, reachable: bool)
    requires HasMessage(s, i)
  {
    var pc := s.consumers[i].pc;
    && s'.processed == eff.processed && s'.projection == eff.projection && |s'.consumers| == |s.consumers|
    && s'.committed == (if eff.acknowledge && reachable then s.committed[pc.k := pc.j + 1] else s.committed)
    && s'.consumers[i].pc == (if eff.acknowledge && reachable then Idle else Stopped)
  }

  lemma DuplicateIsARun(s: State, i: nat, reachable: bool)
    requires HasMessage(s, i) && Message(s, s.consumers[i].pc).id in s.processed
    ensures EndsAs(s, FourSteps(s, i, reachable), i, Effects(s.processed, s.projection, true), reachable)
  {
    var pc := s.consumers[i].pc;
    var s1 := WithPc(s, i, Acking(pc.k, pc.j));
    assert Step(s, Register(i)) == s1;
    assert Step(s1, Apply(i)) == s1 && Step(s1, Commit(i)) == s1;
  }

  lemma UndecodableIsARun(s: State, i: nat, reachable: bool)
    requires HasMessage(s, i) && Message(s, s.consumers[i].pc).id !in s.processed
      && !Decodes(s.c, Message(s, s.consumers[i].pc))
    ensures EndsAs(s, FourSteps(s, i, reachable), i, Effects(s.processed, s.projection, false), reachable)
  {
    var pc := s.consumers[i].pc;
    var s1 := WithPc(s, i, Registered(pc.k, pc.j)).(held := s.held[Message(s, pc).id := i]);
    assert Step(s, Register(i)) == s1;
    var s2 := WithPosition(s1, i, map[], Stopped).(held := Drop(s1.held, i));
    assert Step(s1, Apply(i)) == s2;
    assert Step(s2, Commit(i)) == s2 && Step(s2, Ack(i, reachable)) == s2;
  }

  lemma FreshIsARun(s: State, i: nat, reachable: bool)
    requires HasMessage(s, i) && Message(s, s.consumers[i].pc).id !in s.processed
      && Decodes(s.c, Message(s, s.consumers[i].pc))
    ensures var e := Message(s, s.consumers[i].pc);
      EndsAs(s, FourSteps(s, i, reachable), i,
             Effects(s.processed + {e.id}, ApplyAll(s.projection, Changes(s.c, e).value), true), reachable)
  {
    var pc := s.consumers[i].pc;
    var e := Message(s, pc);
    var s1 := WithPc(s, i, Registered(pc.k, pc.j)).(held := s.held[e.id := i]);
    assert Step(s, Register(i)) == s1;
    var s2 := WithPc(s1, i, Applied(pc.k, pc.j, Changes(s.c, e).value));
    assert Step(s1, Apply(i)) == s2;
    var s3 := WithPc(s2, i, Acking(pc.k, pc.j)).(
      processed := s.processed + {e.id}, projection := ApplyAll(s.projection, Changes(s.c, e).value),
        held := Drop(s2.held, i));
    assert Step(s2, Commit(i)) == s3;
  }

  /**
   * Registering, applying, committing and acknowledging the message in hand: the machine ends
   * where the method does.
   */
  lemma ProcessMessageIsARun(s: State, i: nat, reachable: bool)
    requires HasMessage(s, i)
    ensures EndsAs(s, FourSteps(s, i, reachable), i,
                   EffectOf(s.c, s.processed, s.projection, Message(s, s.consumers[i].pc)), reachable)
  {
    if Message(s, s.consumers[i].pc).id in s.processed { DuplicateIsARun(s, i, reachable); }
    else if !Decodes(s.c, Message(s, s.consumers[i].pc)) { UndecodableIsARun(s, i, reachable); }
    else { FreshIsARun(s, i, reachable); }
  }
}
