/**
 * The committed PostgreSQL tables that a posting writes: transactions, ledger_entries and
 * outbox_events, with the two balance queries over them and the one atomic write, `Post`.
 */
module LedgerTables {
  import opened Prelude
  import opened Money
  import opened RequestHash

  // ---------------------------------------------------------------- environment

  /** What the ledger takes as given: the SYSTEM_CASH row, the value of a decimal text (in cents) and SHA-256. */
  datatype Config = Config(system: AccountId, decimal: string -> real, digest: string -> string)

  /** The request models accept only positive amounts (app/ledger/schemas.py). */
  datatype Request =
    | Deposit(account: AccountId, amount: string)
    | Withdrawal(account: AccountId, amount: string)
    | Transfer(source: AccountId, destination: AccountId, amount: string, key: string)
    | BalanceQuery(account: AccountId)

  predicate Posts(req: Request) { !req.BalanceQuery? }

  function Value(c: Config, req: Request): real
    requires Posts(req)
  {
    c.decimal(req.amount)
  }

  /** A request as the API layer lets it through. */
  predicate Acceptable(c: Config, req: Request) {
    Posts(req) ==> Value(c, req) > 0.0
  }

  function HashOf(c: Config, req: Request): string
    requires req.Transfer?
  {
    c.digest(TransferText(req.source, req.destination, req.amount))
  }

  // ---------------------------------------------------------------- rows

  datatype Txn = Txn(
    key: Option<string>,
    requestHash: Option<string>,
    createdAt: int,
    postedBy: nat)  // bookkeeping of the model: which call inserted the row

  datatype Entry = Entry(txn: nat, account: AccountId, cents: int)

  datatype EventType = DepositPosted | WithdrawalPosted | TransferPosted | OtherEvent(name: string)

  /** The keys of a payload, one constructor for each JSON key in use ("transaction_id", "account_id", ...). */
  datatype Key =
    | KeyTransactionId
    | KeyAccountId
    | KeyFromAccountId
    | KeyToAccountId
    | KeySourceAccountId
    | KeyDestinationAccountId
    | KeyAmount
    | KeyCurrency

  /** A payload value, with str(uuid) and str(decimal) kept apart from plain text. */
  datatype Field = IdField(id: AccountId) | AmountField(amount: string) | TextField(text: string) | TxnField(txn: nat)

  datatype Event = Event(id: nat, aggregate: nat, kind: EventType, payload: map<Key, Field>)

  datatype Tables = Tables(
    txns: map<nat, Txn>,
    entries: seq<Entry>,
    outbox: seq<Event>,
    nextId: nat)  // uuid4 draws are modelled as fresh numbers

  /** payload[k] read as an account id, and as an amount. */
  function Party(payload: map<Key, Field>, k: Key): Option<AccountId> {
    if k in payload && payload[k].IdField? then Some(payload[k].id) else None
  }

  function AmountOf(payload: map<Key, Field>): Option<string> {
    if KeyAmount in payload && payload[KeyAmount].AmountField? then Some(payload[KeyAmount].amount) else None
  }

  const EMPTY: Tables := Tables(map[], [], [], 0)

  // ---------------------------------------------------------------- queries

  /** SUM(amount) over the entries of one account. */
  function Balance(entries: seq<Entry>, x: AccountId): int {
    if entries == [] then 0
    else
      var last := entries[|entries| - 1];
      Balance(entries[..|entries| - 1], x) + if last.account == x then last.cents else 0
  }

  ghost predicate Joined(txns: map<nat, Txn>, entries: seq<Entry>) {
    forall i :: 0 <= i < |entries| ==> entries[i].txn in txns
  }

  /** The same sum over entries whose transaction was created at or before t: get_balance_at. */
  function BalanceAt(txns: map<nat, Txn>, entries: seq<Entry>, x: AccountId, t: int): int {
    if entries == [] then 0
    else
      var last := entries[|entries| - 1];
      BalanceAt(txns, entries[..|entries| - 1], x, t)
      + if last.account == x && last.txn in txns && txns[last.txn].createdAt <= t then last.cents else 0
  }

  ghost predicate KeyTaken(txns: map<nat, Txn>, key: string) {
    exists id :: id in txns && txns[id].key == Some(key)
  }

  /** SELECT ... WHERE idempotency_key = key. */
  ghost function FindKey(txns: map<nat, Txn>, key: string): (r: Option<nat>)
    ensures r.None? <==> !KeyTaken(txns, key)
    ensures r.Some? ==> r.value in txns && txns[r.value].key == Some(key)
  {
    if KeyTaken(txns, key) then
      var id :| id in txns && txns[id].key == Some(key);
      Some(id)
    else None
  }

  // ---------------------------------------------------------------- the atomic write

  /** The two legs of a posting in the order they are added; each is rounded on its own when stored. */
  function Legs(c: Config, req: Request, txn: nat): (Entry, Entry)
    requires Posts(req)
  {
    var v := Value(c, req);
    match req
    case Deposit(a, _) => (Entry(txn, c.system, RoundCents(-v)), Entry(txn, a, RoundCents(v)))
    case Withdrawal(a, _) => (Entry(txn, a, RoundCents(-v)), Entry(txn, c.system, RoundCents(v)))
    case Transfer(a, b, _, _) => (Entry(txn, a, RoundCents(-v)), Entry(txn, b, RoundCents(v)))
  }

  /** Whose money a posting takes, and who gets it. */
  function Payer(c: Config, req: Request): AccountId
    requires Posts(req)
  {
    if req.Transfer? then req.source else if req.Deposit? then c.system else req.account
  }

  function Payee(c: Config, req: Request): AccountId
    requires Posts(req)
  {
    if req.Transfer? then req.destination else if req.Deposit? then req.account else c.system
  }

  /** The two legs move one rounded amount from payer to payee. */
  lemma LegsMoveOneAmount(c: Config, req: Request, txn: nat)
    requires Posts(req)
    ensures var cents := RoundCents(Value(c, req));
      Legs(c, req, txn) == (Entry(txn, Payer(c, req), -cents), Entry(txn, Payee(c, req), cents))
  {
    RoundingLaws(Value(c, req), 0.0, 0);
  }

  function PayloadOf(req: Request, txn: nat, currency: string): map<Key, Field>
    requires Posts(req)
  {
    match req
    case Transfer(a, b, amount, _) =>
      map[KeyTransactionId := TxnField(txn), KeyFromAccountId := IdField(a), KeyToAccountId := IdField(b),
          KeyAmount := AmountField(amount), KeyCurrency := TextField(currency)]
    case Deposit(a, amount) =>
      map[KeyTransactionId := TxnField(txn), KeyAccountId := IdField(a),
          KeyAmount := AmountField(amount), KeyCurrency := TextField(currency)]
    case Withdrawal(a, amount) =>
      map[KeyTransactionId := TxnField(txn), KeyAccountId := IdField(a),
          KeyAmount := AmountField(amount), KeyCurrency := TextField(currency)]
  }

  function KindOf(req: Request): EventType
    requires Posts(req)
  {
    match req
    case Deposit(_, _) => DepositPosted
    case Withdrawal(_, _) => WithdrawalPosted
    case Transfer(_, _, _, _) => TransferPosted
  }

  function TxnOf(c: Config, req: Request, at: int, who: nat): Txn {
    if req.Transfer? then Txn(Some(req.key), Some(HashOf(c, req)), at, who) else Txn(None, None, at, who)
  }

  /** One commit: the transaction stamped `at`, its two entries and its outbox row appear together. */
  function Post(c: Config, t: Tables, req: Request, currency: string, at: int, who: nat): (t': Tables)
    requires Posts(req)
  {
    var id := t.nextId;
    var (e0, e1) := Legs(c, req, id);
    Tables(
      t.txns[id := TxnOf(c, req, at, who)],
      t.entries + [e0, e1],
      t.outbox + [Event(id + 1, id, KindOf(req), PayloadOf(req, id, currency))],
      id + 2)
  }

  /** What a posting does to the balance of x. */
  function Delta(c: Config, req: Request, x: AccountId): int
    requires Posts(req)
  {
    var (e0, e1) := Legs(c, req, 0);
    (if e0.account == x then e0.cents else 0) + if e1.account == x then e1.cents else 0
  }

  // ---------------------------------------------------------------- what one commit does

  lemma BalanceAppend(entries: seq<Entry>, e0: Entry, e1: Entry, x: AccountId)
    ensures Balance(entries + [e0, e1], x)
         == Balance(entries, x) + (if e0.account == x then e0.cents else 0) + if e1.account == x then e1.cents else 0
  {
    var two, one := entries + [e0, e1], entries + [e0];
    assert two[..|two| - 1] == one && one[..|one| - 1] == entries;
  }

  lemma {:induction false} BalanceAtFrame(txns: map<nat, Txn>, txns': map<nat, Txn>, entries: seq<Entry>,
      x: AccountId, t: int)
    requires Joined(txns, entries)
    requires forall id :: id in txns ==> id in txns' && txns'[id] == txns[id]
    ensures BalanceAt(txns', entries, x, t) == BalanceAt(txns, entries, x, t)
  {
    if entries != [] {
      BalanceAtFrame(txns, txns', entries[..|entries| - 1], x, t);
    }
  }

  /** A posting moves the balance of x by its delta, now and at every instant from its stamp on; never before. */
  lemma PostMovesMoney(c: Config, t: Tables, req: Request, cur: string, at: int, who: nat, x: AccountId, when: int)
    requires Posts(req) && Joined(t.txns, t.entries) && t.nextId !in t.txns
    ensures var t' := Post(c, t, req, cur, at, who);
            && Balance(t'.entries, x) == Balance(t.entries, x) + Delta(c, req, x)
            && BalanceAt(t'.txns, t'.entries, x, when)
               == BalanceAt(t.txns, t.entries, x, when) + if at <= when then Delta(c, req, x) else 0
  {
    var t' := Post(c, t, req, cur, at, who);
    var (e0, e1) := Legs(c, req, t.nextId);
    BalanceAppend(t.entries, e0, e1, x);
    BalanceAtFrame(t.txns, t'.txns, t.entries, x, when);
    var one := t.entries + [e0];
    assert t'.entries[..|t'.entries| - 1] == one && one[..|one| - 1] == t.entries;
  }

  /** Once every stamp is in the past, the point-in-time balance is the current one. */
  lemma {:induction false} BalanceAtNow(txns: map<nat, Txn>, entries: seq<Entry>, x: AccountId, t: int)
    requires Joined(txns, entries)
    requires forall id :: id in txns ==> txns[id].createdAt <= t
    ensures BalanceAt(txns, entries, x, t) == Balance(entries, x)
  {
    if entries != [] {
      BalanceAtNow(txns, entries[..|entries| - 1], x, t);
    }
  }

  /** A balance can only fall for the debited account, or for SYSTEM_CASH. */
  lemma OnlyTheDebitedAccountLoses(c: Config, req: Request, x: AccountId)
    requires Posts(req) && Acceptable(c, req) && x != c.system
    requires Delta(c, req, x) < 0
    ensures req.Withdrawal? ==> x == req.account
    ensures req.Transfer? ==> x == req.source
    ensures !req.Deposit?
    ensures Delta(c, req, x) >= RoundCents(-Value(c, req))
  {
  }

  // ---------------------------------------------------------------- postings column by column

  /** What is added to the tables: one transaction, two entries that move cents, one outbox row. */
  ghost predicate Adds(t: Tables, t': Tables, id: nat, at: int, payer: AccountId, payee: AccountId, cents: int,
                       kind: EventType, payload: map<Key, Field>) {
    && t'.txns.Keys == t.txns.Keys + {id}
    && (forall other :: other in t.txns && other != id ==> t'.txns[other] == t.txns[other])
    && t'.txns[id].createdAt == at
    && t'.entries == t.entries + [Entry(id, payer, -cents), Entry(id, payee, cents)]
    && |t'.outbox| == |t.outbox| + 1 && t'.outbox[..|t.outbox|] == t.outbox
    && var row := t'.outbox[|t.outbox|];
       row.aggregate == id && row.kind == kind && row.payload == payload
  }

  /** A deposit takes the rounded amount from SYSTEM_CASH and gives it to the account; the row names the account. */
  lemma DepositInColumns(c: Config, t: Tables, a: AccountId, amount: string, currency: string, at: int, who: nat)
    ensures Adds(t, Post(c, t, Deposit(a, amount), currency, at, who), t.nextId, at,
                 c.system, a, RoundCents(c.decimal(amount)), DepositPosted,
                 map[KeyTransactionId := TxnField(t.nextId), KeyAccountId := IdField(a),
                     KeyAmount := AmountField(amount), KeyCurrency := TextField(currency)])
  {
    RoundingLaws(c.decimal(amount), 0.0, 0);
  }

  /** A withdrawal goes the other way. */
  lemma WithdrawalInColumns(c: Config, t: Tables, a: AccountId, amount: string, currency: string, at: int, who: nat)
    ensures Adds(t, Post(c, t, Withdrawal(a, amount), currency, at, who), t.nextId, at,
                 a, c.system, RoundCents(c.decimal(amount)), WithdrawalPosted,
                 map[KeyTransactionId := TxnField(t.nextId), KeyAccountId := IdField(a),
                     KeyAmount := AmountField(amount), KeyCurrency := TextField(currency)])
  {
    RoundingLaws(c.decimal(amount), 0.0, 0);
  }

  /** A transfer names both parties, and its transaction carries the key. */
  lemma TransferInColumns(c: Config, t: Tables, a: AccountId, b: AccountId, amount: string, key: string,
                          currency: string, at: int, who: nat)
    ensures var t' := Post(c, t, Transfer(a, b, amount, key), currency, at, who);
      && Adds(t, t', t.nextId, at, a, b, RoundCents(c.decimal(amount)), TransferPosted,
              map[KeyTransactionId := TxnField(t.nextId), KeyFromAccountId := IdField(a), KeyToAccountId := IdField(b),
                  KeyAmount := AmountField(amount), KeyCurrency := TextField(currency)])
      && t'.txns[t.nextId].key == Some(key)
      && t'.txns[t.nextId].requestHash == Some(c.digest(UuidText(a) + ":" + UuidText(b) + ":" + amount))
  {
    RoundingLaws(c.decimal(amount), 0.0, 0);
  }
}
