/**
 * Double entry and the transactional outbox: in every reachable state each transaction has
 * exactly two entries that cancel and exactly one outbox row that describes them, and the
 * balances are the ones the outbox rows add up to.
 */
module LedgerBooks {
  import opened Prelude
  import opened Money
  import opened LedgerTables
  import opened LedgerMachine

  function EntriesOf(entries: seq<Entry>, txn: nat): seq<Entry> {
    if entries == [] then []
    else
      var last := entries[|entries| - 1];
      EntriesOf(entries[..|entries| - 1], txn) + if last.txn == txn then [last] else []
  }

  function RowsOf(outbox: seq<Event>, txn: nat): seq<Event> {
    if outbox == [] then []
    else
      var last := outbox[|outbox| - 1];
      RowsOf(outbox[..|outbox| - 1], txn) + if last.aggregate == txn then [last] else []
  }

  /** SUM(amount) over the whole table, and over everything but one account. */
  function GrandTotal(entries: seq<Entry>): int {
    if entries == [] then 0 else GrandTotal(entries[..|entries| - 1]) + entries[|entries| - 1].cents
  }

  function TotalExcept(entries: seq<Entry>, system: AccountId): int {
    if entries == [] then 0
    else
      var last := entries[|entries| - 1];
      TotalExcept(entries[..|entries| - 1], system) + if last.account != system then last.cents else 0
  }

  // ---------------------------------------------------------------- what an outbox row says happened

  function Leg(party: Option<AccountId>, x: AccountId, cents: int): int {
    if party == Some(x) then cents else 0
  }

  /** The change of x's balance an event tells of, read with the keys the ledger writes. */
  function Effect(c: Config, e: Event, x: AccountId): int {
    match AmountOf(e.payload)
    case None => 0
    case Some(text) =>
      var v := RoundCents(c.decimal(text));
      match e.kind
      case DepositPosted => Leg(Party(e.payload, KeyAccountId), x, v) - Leg(Some(c.system), x, v)
      case WithdrawalPosted => Leg(Some(c.system), x, v) - Leg(Party(e.payload, KeyAccountId), x, v)
      case TransferPosted => Leg(Party(e.payload, KeyToAccountId), x, v) - Leg(Party(e.payload, KeyFromAccountId), x, v)
      case OtherEvent(_) => 0
  }

  function Effects(c: Config, outbox: seq<Event>, x: AccountId): int {
    if outbox == [] then 0 else Effects(c, outbox[..|outbox| - 1], x) + Effect(c, outbox[|outbox| - 1], x)
  }

  /** The shape of the rows the ledger writes: its own payload keys, nothing else's. */
  predicate Emitted(e: Event) {
    && AmountOf(e.payload).Some?
    && KeySourceAccountId !in e.payload && KeyDestinationAccountId !in e.payload
    && match e.kind
       case DepositPosted => Party(e.payload, KeyAccountId).Some?
       case WithdrawalPosted => Party(e.payload, KeyAccountId).Some?
       case TransferPosted =>
         Party(e.payload, KeyFromAccountId).Some? && Party(e.payload, KeyToAccountId).Some?
       case OtherEvent(_) => false
  }

  /** Money an event brings to the customers: deposits in, withdrawals out, transfers only if SYSTEM_CASH is a party. */
  function InflowOf(c: Config, e: Event): int
    requires Emitted(e)
  {
    var v := RoundCents(c.decimal(AmountOf(e.payload).value));
    match e.kind
    case DepositPosted => if Party(e.payload, KeyAccountId).value != c.system then v else 0
    case WithdrawalPosted => if Party(e.payload, KeyAccountId).value != c.system then -v else 0
    case TransferPosted =>
      var a, b := Party(e.payload, KeyFromAccountId).value, Party(e.payload, KeyToAccountId).value;
      if a == c.system && b != c.system then v
      else if b == c.system && a != c.system then -v
      else 0
  }

  function Inflow(c: Config, outbox: seq<Event>): int
    requires forall e :: e in outbox ==> Emitted(e)
  {
    if outbox == [] then 0 else Inflow(c, outbox[..|outbox| - 1]) + InflowOf(c, outbox[|outbox| - 1])
  }

  lemma {:induction false} InflowLeavesSystemCash(c: Config, outbox: seq<Event>)
    requires forall e :: e in outbox ==> Emitted(e)
    ensures Inflow(c, outbox) == -Effects(c, outbox, c.system)
  {
    if outbox != [] {
      InflowLeavesSystemCash(c, outbox[..|outbox| - 1]);
      assert Emitted(outbox[|outbox| - 1]);
    }
  }

  // ---------------------------------------------------------------- the invariant

  function CurrencyIn(e: Event): string {
    if KeyCurrency in e.payload && e.payload[KeyCurrency].TextField? then e.payload[KeyCurrency].text else ""
  }

  /** Transaction `id`, its two entries and its one outbox row are exactly those of the request. */
  ghost predicate RecordsOf(c: Config, t: Tables, req: Request, id: nat)
    requires id in t.txns
  {
    && Posts(req)
    && t.txns[id] == TxnOf(c, req, t.txns[id].createdAt, t.txns[id].postedBy)
    && EntriesOf(t.entries, id) == [Legs(c, req, id).0, Legs(c, req, id).1]
    && |RowsOf(t.outbox, id)| == 1
    && var row := RowsOf(t.outbox, id)[0];
       row == Event(id + 1, id, KindOf(req), PayloadOf(req, id, CurrencyIn(row)))
  }

  /** No row stands alone, and the sums agree. */
  ghost predicate Tied(c: Config, t: Tables) {
    && Joined(t.txns, t.entries)
    && (forall id :: id in t.txns ==> id < t.nextId)
    && (forall i :: 0 <= i < |t.outbox| ==> t.outbox[i].aggregate in t.txns)
    && |t.entries| == 2 * |t.outbox|
    && (forall x: AccountId :: Balance(t.entries, x) == Effects(c, t.outbox, x))
    && GrandTotal(t.entries) == 0
  }

  /** Event ids are fresh, and every row has one of the three shapes. */
  ghost predicate Sequenced(t: Tables) {
    && (forall e :: e in t.outbox ==> e.id < t.nextId && Emitted(e))
    && (forall i, j :: 0 <= i < j < |t.outbox| ==> t.outbox[i].id < t.outbox[j].id)
  }

  ghost predicate Recorded(s: State, id: nat)
    requires id in s.tables.txns
  {
    var p := s.tables.txns[id].postedBy;
    p < |s.procs| && RecordsOf(s.c, s.tables, s.procs[p].req, id)
  }

  ghost predicate AllRecorded(s: State) {
    forall id :: id in s.tables.txns ==> Recorded(s, id)
  }

  ghost predicate BooksInv(s: State) {
    Tied(s.c, s.tables) && Sequenced(s.tables) && AllRecorded(s)
  }

  // ---------------------------------------------------------------- one posting

  lemma {:induction false} NoEntriesYet(entries: seq<Entry>, id: nat)
    requires forall i :: 0 <= i < |entries| ==> entries[i].txn != id
    ensures EntriesOf(entries, id) == []
  {
    if entries != [] { NoEntriesYet(entries[..|entries| - 1], id); }
  }

  lemma {:induction false} NoRowsYet(outbox: seq<Event>, id: nat)
    requires forall i :: 0 <= i < |outbox| ==> outbox[i].aggregate != id
    ensures RowsOf(outbox, id) == []
  {
    if outbox != [] { NoRowsYet(outbox[..|outbox| - 1], id); }
  }

  lemma AppendTwo(entries: seq<Entry>, e0: Entry, e1: Entry, id: nat)
    ensures EntriesOf(entries + [e0, e1], id)
         == EntriesOf(entries, id) + (if e0.txn == id then [e0] else []) + (if e1.txn == id then [e1] else [])
    ensures GrandTotal(entries + [e0, e1]) == GrandTotal(entries) + e0.cents + e1.cents
  {
    var two, one := entries + [e0, e1], entries + [e0];
    assert two[..|two| - 1] == one && one[..|one| - 1] == entries;
  }

  lemma AppendRow(c: Config, outbox: seq<Event>, e: Event, id: nat, x: AccountId)
    ensures RowsOf(outbox + [e], id) == RowsOf(outbox, id) + if e.aggregate == id then [e] else []
    ensures Effects(c, outbox + [e], x) == Effects(c, outbox, x) + Effect(c, e, x)
  {
    assert (outbox + [e])[..|outbox|] == outbox;
  }

  /** The payload carries the unrounded amount; read back and rounded it is exactly what the entries moved. */
  lemma PayloadTellsTheEntries(c: Config, req: Request, txn: nat, currency: string, x: AccountId)
    requires Posts(req)
    ensures Effect(c, Event(txn + 1, txn, KindOf(req), PayloadOf(req, txn, currency)), x) == Delta(c, req, x)
  {
    RoundingLaws(Value(c, req), 0.0, 0);
  }

  lemma PostKeepsOldRecords(c: Config, t: Tables, req: Request, currency: string, at: int, who: nat, earlier: Request,
      id: nat)
    requires Posts(req) && Tied(c, t) && id in t.txns && RecordsOf(c, t, earlier, id)
    ensures RecordsOf(c, Post(c, t, req, currency, at, who), earlier, id)
  {
    var t' := Post(c, t, req, currency, at, who);
    var (e0, e1) := Legs(c, req, t.nextId);
    AppendTwo(t.entries, e0, e1, id);
    AppendRow(c, t.outbox, t'.outbox[|t.outbox|], id, c.system);
  }

  lemma NewEntries(c: Config, t: Tables, req: Request)
    requires Posts(req) && Tied(c, t)
    ensures EntriesOf(t.entries + [Legs(c, req, t.nextId).0, Legs(c, req, t.nextId).1], t.nextId)
         == [Legs(c, req, t.nextId).0, Legs(c, req, t.nextId).1]
  {
    NoEntriesYet(t.entries, t.nextId);
    AppendTwo(t.entries, Legs(c, req, t.nextId).0, Legs(c, req, t.nextId).1, t.nextId);
  }

  lemma NewRow(c: Config, t: Tables, row: Event)
    requires Tied(c, t) && row.aggregate == t.nextId
    ensures RowsOf(t.outbox + [row], t.nextId) == [row]
  {
    NoRowsYet(t.outbox, t.nextId);
    AppendRow(c, t.outbox, row, t.nextId, c.system);
  }

  lemma PostRecordsItself(c: Config, t: Tables, req: Request, currency: string, at: int, who: nat)
    requires Posts(req) && Tied(c, t)
    ensures RecordsOf(c, Post(c, t, req, currency, at, who), req, t.nextId)
  {
    var id := t.nextId;
    var row := Event(id + 1, id, KindOf(req), PayloadOf(req, id, currency));
    NewEntries(c, t, req);
    NewRow(c, t, row);
    PayloadNamesCurrency(req, id, currency);
    assert Post(c, t, req, currency, at, who).outbox == t.outbox + [row];
  }

  lemma PayloadNamesCurrency(req: Request, txn: nat, currency: string)
    requires Posts(req)
    ensures CurrencyIn(Event(txn + 1, txn, KindOf(req), PayloadOf(req, txn, currency))) == currency
  {
  }

  lemma PostKeepsSums(c: Config, t: Tables, req: Request, currency: string, at: int, who: nat, x: AccountId)
    requires Posts(req) && Joined(t.txns, t.entries) && t.nextId !in t.txns
      && Balance(t.entries, x) == Effects(c, t.outbox, x)
    ensures var t' := Post(c, t, req, currency, at, who);
      Balance(t'.entries, x) == Effects(c, t'.outbox, x)
  {
    var id := t.nextId;
    PostMovesMoney(c, t, req, currency, at, who, x, 0);
    AppendRow(c, t.outbox, Event(id + 1, id, KindOf(req), PayloadOf(req, id, currency)), id, x);
    PayloadTellsTheEntries(c, req, id, currency, x);
  }

  lemma PostKeepsTied(c: Config, t: Tables, req: Request, currency: string, at: int, who: nat)
    requires Posts(req) && Tied(c, t)
    ensures Tied(c, Post(c, t, req, currency, at, who))
  {
    var t', id := Post(c, t, req, currency, at, who), t.nextId;
    var (e0, e1) := Legs(c, req, id);
    forall x: AccountId ensures Balance(t'.entries, x) == Effects(c, t'.outbox, x) {
      PostKeepsSums(c, t, req, currency, at, who, x);
    }
    AppendTwo(t.entries, e0, e1, id);
    RoundingLaws(Value(c, req), 0.0, 0);
  }

  lemma PostIsEmitted(req: Request, txn: nat, currency: string)
    requires Posts(req)
    ensures Emitted(Event(txn + 1, txn, KindOf(req), PayloadOf(req, txn, currency)))
  {
  }

  lemma PostKeepsSequence(c: Config, t: Tables, req: Request, currency: string, at: int, who: nat)
    requires Posts(req) && Sequenced(t)
    ensures Sequenced(Post(c, t, req, currency, at, who))
  {
    PostIsEmitted(req, t.nextId, currency);
    assert forall i :: 0 <= i < |t.outbox| ==> t.outbox[i] in t.outbox;
  }

  lemma RecordedStep(s: State, s': State, currency: string, at: int, p: nat)
    requires BooksInv(s) && SameCalls(s, s') && p < |s.procs| && Posts(s.procs[p].req)
    requires s'.tables == Post(s.c, s.tables, s.procs[p].req, currency, at, p)
    ensures forall id :: id in s'.tables.txns ==> Recorded(s', id)
  {
    PostRecordsItself(s.c, s.tables, s.procs[p].req, currency, at, p);
    forall id | id in s.tables.txns ensures Recorded(s', id) {
      assert Recorded(s, id);
      var poster := s.procs[s.tables.txns[id].postedBy].req;
      PostKeepsOldRecords(s.c, s.tables, s.procs[p].req, currency, at, p, poster, id);
    }
  }

  lemma BooksInvStep(s: State, a: Action)
    requires Typed(s) && BooksInv(s)
    ensures BooksInv(Step(s, a))
  {
    var s' := Step(s, a);
    TypedStep(s, a);
    CommitOrQuiet(s, a);
    if s'.tables != s.tables {
      var currency, at :| s'.tables == Post(s.c, s.tables, s.procs[a.p].req, currency, at, a.p);
      PostKeepsTied(s.c, s.tables, s.procs[a.p].req, currency, at, a.p);
      PostKeepsSequence(s.c, s.tables, s.procs[a.p].req, currency, at, a.p);
      RecordedStep(s, s', currency, at, a.p);
    } else {
      assert forall id :: id in s.tables.txns ==> Recorded(s, id);
    }
  }

  // ---------------------------------------------------------------- what follows

  /** Every transaction is balanced: exactly two entries, of opposite sign, and exactly one outbox row. */
  lemma DoubleEntry(s: State, id: nat)
    requires BooksInv(s) && id in s.tables.txns
    ensures var legs := EntriesOf(s.tables.entries, id);
      |legs| == 2 && legs[0].cents + legs[1].cents == 0 && legs[0].txn == legs[1].txn == id
    ensures |RowsOf(s.tables.outbox, id)| == 1
  {
    assert Recorded(s, id);
    RoundingLaws(Value(s.c, s.procs[s.tables.txns[id].postedBy].req), 0.0, 0);
  }

  lemma {:induction false} SplitTotal(entries: seq<Entry>, system: AccountId)
    ensures TotalExcept(entries, system) + Balance(entries, system) == GrandTotal(entries)
  {
    if entries != [] { SplitTotal(entries[..|entries| - 1], system); }
  }

  /** Money is conserved: all entries cancel, and customers together hold what came in through SYSTEM_CASH. */
  lemma MoneyIsConserved(s: State)
    requires BooksInv(s)
    ensures GrandTotal(s.tables.entries) == 0
    ensures TotalExcept(s.tables.entries, s.c.system) == Inflow(s.c, s.tables.outbox)
  {
    SplitTotal(s.tables.entries, s.c.system);
    InflowLeavesSystemCash(s.c, s.tables.outbox);
  }

  ghost predicate PairedAndAnnounced(t: Tables, id: nat) {
    var legs := EntriesOf(t.entries, id);
    |legs| == 2 && legs[0].cents + legs[1].cents == 0 && |RowsOf(t.outbox, id)| == 1
  }

  /** What an auditor would ask of the tables. */
  ghost predicate Balanced(c: Config, t: Tables) {
    && (forall id :: id in t.txns ==> PairedAndAnnounced(t, id))
    && (forall i :: 0 <= i < |t.entries| ==> t.entries[i].txn in t.txns)
    && (forall e :: e in t.outbox ==> e.aggregate in t.txns && Emitted(e))
    && GrandTotal(t.entries) == 0
    && TotalExcept(t.entries, c.system) == Inflow(c, t.outbox)
  }

  lemma BooksAreBalanced(s: State)
    requires BooksInv(s)
    ensures Balanced(s.c, s.tables)
  {
    forall id | id in s.tables.txns ensures PairedAndAnnounced(s.tables, id) { DoubleEntry(s, id); }
    MoneyIsConserved(s);
  }
}
