/**
 * The ledger service as it is written: create_deposit, create_withdrawal, create_transfer and
 * get_balance, statement by statement over one session, when calls do not overlap. Each is
 * proved against what the request deserves in the tables it finds.
 */
module LedgerService {
  import opened Prelude
  import opened Money
  import opened LedgerTables
  import opened LedgerMachine
  import opened RequestHash
  import opened LedgerReplay

  /** Why a posting request is refused in these tables, if it is; the checks in the order they are made. */
  function Refusal(c: Config, accounts: map<AccountId, Account>, entries: seq<Entry>, req: Request): Option<Reason>
    requires Posts(req)
  {
    match req
    case Deposit(a, _) =>
      if a !in accounts then Some(AccountNotFound)
      else if accounts[a].status != Active then Some(AccountNotActive)
      else if c.system !in accounts then Some(SystemCashNotFound)
      else None
    case Withdrawal(a, _) =>
      if a !in accounts then Some(AccountNotFound)
      else if accounts[a].status != Active then Some(AccountNotActive)
      else if Balance(entries, a) as real < Value(c, req) then Some(InsufficientFunds)
      else if c.system !in accounts then Some(SystemCashNotFound)
      else None
    case Transfer(a, b, _, _) =>
      if a == b then Some(SameAccount)
      else if a !in accounts || b !in accounts then Some(AccountNotFound)
      else if accounts[a].status != Active || accounts[b].status != Active then Some(AccountNotActive)
      else if accounts[a].currency != accounts[b].currency then Some(CurrencyMismatch)
      else if Balance(entries, a) as real < Value(c, req) then Some(InsufficientFunds)
      else None
  }

  /** Redis after a delete of x that works, fails, or takes effect and still raises. */
  function AfterDelete(cache: map<AccountId, int>, x: AccountId, redis: Redis): map<AccountId, int> {
    if redis.Fails? then cache else cache - {x}
  }

  /**
   * Redis after the two deletes of a transfer, which share one try block: when the first raises
   * the second is skipped.
   */
  function AfterBothDeletes(cache: map<AccountId, int>, req: Request, first: Redis, second: Redis): map<AccountId, int>
    requires req.Transfer?
  {
    var one := AfterDelete(cache, req.source, first);
    if first.Works? then AfterDelete(one, req.destination, second) else one
  }

  /** A transfer another session commits, with its stamp. */
  datatype Rival = Rival(req: Request, currency: string, at: int, who: nat)

  function RivalPost(c: Config, t: Tables, rival: Rival): Tables
    requires rival.req.Transfer?
  {
    Post(c, t, rival.req, rival.currency, rival.at, rival.who)
  }

  /**
   * Which keys are gone: the source's unless the first delete failed, the destination's only if
   * both took effect in turn.
   */
  lemma DeletesByKey(cache: map<AccountId, int>, req: Request, first: Redis, second: Redis)
    requires req.Transfer? && req.source != req.destination
    ensures var after := AfterBothDeletes(cache, req, first, second);
      && (req.source in after <==> req.source in cache && first.Fails?)
      && (req.destination in after <==> req.destination in cache && !(first.Works? && !second.Fails?))
      && forall x :: x in after ==> x in cache && after[x] == cache[x]
  {
  }

  class LedgerSession {
    const c: Config
    var accounts: map<AccountId, Account>
    var tables: Tables
    var cache: map<AccountId, int>
    // rows added and flushed in the open transaction
    var newTxns: map<nat, Txn>
    var newEntries: seq<Entry>
    var newEvents: seq<Event>
    var locked: set<AccountId>

    ghost predicate Valid()
      reads this
    {
      && newTxns == map[] && newEntries == [] && newEvents == [] && locked == {}
      && KeysUnique(tables.txns) && Joined(tables.txns, tables.entries)
      && forall id :: id in tables.txns ==> id < tables.nextId
    }

    /** While calls do not overlap and deletes succeed, the cache is exact for everyone but SYSTEM_CASH. */
    ghost predicate FreshCache()
      reads this
    {
      forall x :: x in cache && x != c.system ==> cache[x] == Balance(tables.entries, x)
    }

    method Rollback()
      modifies this`newTxns, this`newEntries, this`newEvents, this`locked
      ensures newTxns == map[] && newEntries == [] && newEvents == [] && locked == {}
    {
      newTxns, newEntries, newEvents, locked := map[], [], [], {};
    }

    /** Everything added becomes visible at once. */
    method Commit()
      modifies this`newTxns, this`newEntries, this`newEvents, this`locked, this`tables
      ensures tables == Tables(old(tables.txns) + old(newTxns), old(tables.entries) + old(newEntries),
                               old(tables.outbox) + old(newEvents), old(tables.nextId) + 2)
      ensures newTxns == map[] && newEntries == [] && newEvents == [] && locked == {}
    {
      tables := Tables(tables.txns + newTxns, tables.entries + newEntries,
                       tables.outbox + newEvents, tables.nextId + 2);
      Rollback();
    }

    /** db.add(transaction), flush, add_all(entries), create_outbox_event, commit. */
    method PostAndCommit(req: Request, now: int, who: nat) returns (id: nat)
      requires Posts(req) && Clean()
      modifies this`newTxns, this`newEntries, this`newEvents, this`locked, this`tables
      ensures id == old(tables.nextId)
      ensures tables == Post(c, old(tables), req, CurrencyOf(accounts, req), now, who)
      ensures newTxns == map[] && newEntries == [] && newEvents == [] && locked == {}
    {
      id := tables.nextId;
      newTxns := map[id := TxnOf(c, req, now, who)];
      newEntries := BuildEntries(req, id);
      LegsMoveOneAmount(c, req, id);
      var currency := CurrencyOf(accounts, req);
      newEvents := [Event(id + 1, id, KindOf(req), PayloadOf(req, id, currency))];
      ghost var t := tables;
      Commit();
      assert tables == Post(c, t, req, currency, now, who);
    }

    /** Two rows of the transaction: what the payer loses and the payee gains is one amount in whole cents. */
    method BuildEntries(req: Request, id: nat) returns (entries: seq<Entry>)
      requires Posts(req)
      ensures |entries| == 2 && entries[0].txn == entries[1].txn == id
      ensures entries[0].account == Payer(c, req) && entries[1].account == Payee(c, req)
      ensures entries[0].cents + entries[1].cents == 0 && entries[1].cents == RoundCents(Value(c, req))
    {
      var v := Value(c, req);
      RoundingLaws(v, 0.0, 0);
      match req {
        case Deposit(a, _) =>
          entries := [Entry(id, c.system, RoundCents(-v)), Entry(id, a, RoundCents(v))];
        case Withdrawal(a, _) =>
          entries := [Entry(id, a, RoundCents(-v)), Entry(id, c.system, RoundCents(v))];
        case Transfer(a, b, _, _) =>
          entries := [Entry(id, a, RoundCents(-v)), Entry(id, b, RoundCents(v))];
      }
    }

    ghost predicate Clean()
      reads this
    {
      newTxns == map[] && newEntries == [] && newEvents == []
    }

    method InvalidateBalance(account: AccountId, redis: Redis) returns (raised: bool)
      modifies this`cache
      ensures raised <==> !redis.Works?
      ensures account in cache <==> account in old(cache) && redis.Fails?
      ensures forall x :: x != account ==>
        (x in cache <==> x in old(cache)) && (x in cache ==> cache[x] == old(cache)[x])
      ensures cache == AfterDelete(old(cache), account, redis)
    {
      if !redis.Fails? { cache := cache - {account}; }
      raised := !redis.Works?;
    }

    /** SELECT ... FOR UPDATE of the rows that exist. */
    method Lock(rows: set<AccountId>) returns (found: set<AccountId>)
      modifies this`locked
      ensures found == rows * accounts.Keys && locked == old(locked) + found
    {
      found := rows * accounts.Keys;
      locked := locked + found;
    }

    method CreateDeposit(account: AccountId, amount: string, now: int, who: nat, redis: Redis)
      returns (outcome: Outcome)
      requires Valid()
      modifies this
      ensures Valid() && accounts == old(accounts)
      ensures var req := Deposit(account, amount);
        match Refusal(c, accounts, old(tables.entries), req)
        case Some(reason) => outcome == Failed(reason) && tables == old(tables) && cache == old(cache)
        case None =>
          && outcome == Posted(old(tables.nextId))
          && tables == Post(c, old(tables), req, CurrencyOf(accounts, req), now, who)
          && cache == AfterDelete(old(cache), account, redis)
      ensures outcome.Posted? <==> account in accounts && accounts[account].status == Active && c.system in accounts
      ensures outcome.Posted? ==>
        Adds(old(tables), tables, outcome.txn, now, c.system, account, RoundCents(c.decimal(amount)), DepositPosted,
             map[KeyTransactionId := TxnField(outcome.txn), KeyAccountId := IdField(account),
                 KeyAmount := AmountField(amount), KeyCurrency := TextField(accounts[account].currency)])
      ensures old(FreshCache()) && redis.Works? ==> FreshCache()
    {
      if account !in accounts { return Failed(AccountNotFound); }
      if accounts[account].status != Active { return Failed(AccountNotActive); }
      if c.system !in accounts { return Failed(SystemCashNotFound); }
      ghost var before := tables;
      var id := PostAndCommit(Deposit(account, amount), now, who);
      PostKeepsSession(c, before, Deposit(account, amount), accounts[account].currency, now, who);
      DepositInColumns(c, before, account, amount, accounts[account].currency, now, who);
      var _ := InvalidateBalance(account, redis);
      return Posted(id);
    }

    method CreateWithdrawal(account: AccountId, amount: string, now: int, who: nat, redis: Redis)
      returns (outcome: Outcome)
      requires Valid()
      modifies this
      ensures Valid() && accounts == old(accounts)
      ensures var req := Withdrawal(account, amount);
        match Refusal(c, accounts, old(tables.entries), req)
        case Some(reason) => outcome == Failed(reason) && tables == old(tables) && cache == old(cache)
        case None =>
          && outcome == Posted(old(tables.nextId))
          && tables == Post(c, old(tables), req, CurrencyOf(accounts, req), now, who)
          && cache == AfterDelete(old(cache), account, redis)
      ensures outcome.Posted? <==>
        && account in accounts && accounts[account].status == Active && c.system in accounts
        && c.decimal(amount) <= Balance(old(tables.entries), account) as real
      ensures outcome.Posted? ==>
        Adds(old(tables), tables, outcome.txn, now, account, c.system, RoundCents(c.decimal(amount)), WithdrawalPosted,
             map[KeyTransactionId := TxnField(outcome.txn), KeyAccountId := IdField(account),
                 KeyAmount := AmountField(amount), KeyCurrency := TextField(accounts[account].currency)])
      ensures old(FreshCache()) && redis.Works? ==> FreshCache()
    {
      var found := Lock({account});
      if account !in found { Rollback(); return Failed(AccountNotFound); }
      if accounts[account].status != Active { Rollback(); return Failed(AccountNotActive); }
      var balance := Balance(tables.entries, account);
      if balance as real < c.decimal(amount) { Rollback(); return Failed(InsufficientFunds); }
      if c.system !in accounts { Rollback(); return Failed(SystemCashNotFound); }
      ghost var before := tables;
      var id := PostAndCommit(Withdrawal(account, amount), now, who);
      PostKeepsSession(c, before, Withdrawal(account, amount), accounts[account].currency, now, who);
      WithdrawalInColumns(c, before, account, amount, accounts[account].currency, now, who);
      var _ := InvalidateBalance(account, redis);
      return Posted(id);
    }

    /**
     * An earlier transaction with the key answers the call; otherwise the request is refused or
     * posted, unless a rival commits the key between the checks and the insert: then the unique
     * violation is met, everything rolled back, and the rival's transaction answers.
     */
    method CreateTransfer(source: AccountId, destination: AccountId, amount: string, key: string, now: int, who: nat,
                          rival: Option<Rival>, first: Redis, second: Redis)
      returns (outcome: Outcome)
      requires Valid() && (rival.Some? ==> rival.value.req.Transfer? && rival.value.req.key == key)
      modifies this
      ensures Valid() && accounts == old(accounts)
      ensures var req := Transfer(source, destination, amount, key);
        if KeyTaken(old(tables.txns), key) then
          var id := FindKey(old(tables.txns), key).value;
          && tables == old(tables) && cache == old(cache)
          && outcome == RetryAnswer(c, old(tables.txns), id, req)
        else
          match Refusal(c, accounts, old(tables.entries), req)
          case Some(reason) => outcome == Failed(reason) && tables == old(tables) && cache == old(cache)
          case None =>
            if rival.Some? then
              && tables == RivalPost(c, old(tables), rival.value) && cache == old(cache)
              && outcome == RetryAnswer(c, tables.txns, old(tables.nextId), req)
            else
              && outcome == Posted(old(tables.nextId))
              && tables == Post(c, old(tables), req, CurrencyOf(accounts, req), now, who)
              && cache == AfterBothDeletes(old(cache), req, first, second)
      ensures rival.None? ==>
        (outcome.Posted? <==>
          && (forall id :: id in old(tables.txns) ==> old(tables.txns)[id].key != Some(key))
          && source != destination && source in accounts && destination in accounts
          && accounts[source].status == Active && accounts[destination].status == Active
          && accounts[source].currency == accounts[destination].currency
          && c.decimal(amount) <= Balance(old(tables.entries), source) as real)
      ensures outcome.Posted? ==>
        && Adds(old(tables), tables, outcome.txn, now,
                source, destination, RoundCents(c.decimal(amount)), TransferPosted,
                map[KeyTransactionId := TxnField(outcome.txn),
                    KeyFromAccountId := IdField(source), KeyToAccountId := IdField(destination),
                    KeyAmount := AmountField(amount), KeyCurrency := TextField(accounts[source].currency)])
        && tables.txns[outcome.txn].key == Some(key)
      ensures CollisionFree(c.digest) && rival.Some? && tables != old(tables) ==>
        outcome == if rival.value.req.source == source && rival.value.req.destination == destination
                      && rival.value.req.amount == amount
                   then Replayed(old(tables.nextId)) else Failed(KeyUsedForDifferentRequest)
      ensures old(FreshCache()) && rival.None? && first.Works? && second.Works? ==> FreshCache()
    {
      var req := Transfer(source, destination, amount, key);
      var existing := FindByKey(key);
      if existing.Some? {
        if tables.txns[existing.value].requestHash != Some(HashOf(c, req)) {
          return Failed(KeyUsedForDifferentRequest);
        }
        return Replayed(existing.value);
      }
      var problem := CheckTransfer(req);
      if problem.Some? {
        Rollback();
        return Failed(problem.value);
      }
      if rival.Some? {
        ghost var id := tables.nextId;
        RivalCommits(rival.value);
        outcome := LoseRace(req);
        if CollisionFree(c.digest) { AnswerByRequest(c, tables.txns, id, req, rival.value.req); }
        return;
      }
      ghost var before := tables;
      var id := MoveAndInvalidate(req, now, who, first, second);
      TransferInColumns(c, before, source, destination, amount, key, accounts[source].currency, now, who);
      return Posted(id);
    }

    /** What another session does meanwhile, and how this one sees it. */
    method RivalCommits(rival: Rival)
      requires rival.req.Transfer? && !KeyTaken(tables.txns, rival.req.key)
      requires KeysUnique(tables.txns) && Joined(tables.txns, tables.entries)
        && forall id :: id in tables.txns ==> id < tables.nextId
      modifies this`tables
      ensures tables == RivalPost(c, old(tables), rival)
        && FindKey(tables.txns, rival.req.key) == Some(old(tables.nextId))
      ensures KeysUnique(tables.txns) && Joined(tables.txns, tables.entries)
        && forall id :: id in tables.txns ==> id < tables.nextId
    {
      PostKeepsSession(c, tables, rival.req, rival.currency, rival.at, rival.who);
      ghost var id := tables.nextId;
      tables := RivalPost(c, tables, rival);
      assert id in tables.txns && tables.txns[id].key == Some(rival.req.key);
    }

    /** The insert raises IntegrityError: roll back, read the key again, and replay or refuse. */
    method LoseRace(req: Request) returns (outcome: Outcome)
      requires req.Transfer? && KeysUnique(tables.txns) && KeyTaken(tables.txns, req.key)
      modifies this`newTxns, this`newEntries, this`newEvents, this`locked
      ensures newTxns == map[] && newEntries == [] && newEvents == [] && locked == {}
      ensures outcome == RetryAnswer(c, tables.txns, FindKey(tables.txns, req.key).value, req)
    {
      Rollback();
      var existing := FindByKey(req.key);
      if tables.txns[existing.value].requestHash != Some(HashOf(c, req)) { return Failed(KeyUsedForDifferentRequest); }
      return Replayed(existing.value);
    }

    method FindByKey(key: string) returns (existing: Option<nat>)
      requires KeysUnique(tables.txns)
      ensures existing == FindKey(tables.txns, key)
    {
      if id :| id in tables.txns && tables.txns[id].key == Some(key) {
        return Some(id);
      }
      return None;
    }

    /** Validate, lock both rows in id order, re-check them and the source's balance under the locks. */
    method CheckTransfer(req: Request) returns (problem: Option<Reason>)
      requires req.Transfer?
      modifies this`locked
      ensures problem == Refusal(c, accounts, tables.entries, req)
    {
      var source, destination := req.source, req.destination;
      if source == destination { return Some(SameAccount); }
      var found := Lock({source, destination});
      if |found| != 2 {
        assert found != {source, destination};
        return Some(AccountNotFound);
      }
      BothFound(found, source, destination);
      if accounts[source].status != Active { return Some(AccountNotActive); }
      if accounts[destination].status != Active { return Some(AccountNotActive); }
      if accounts[source].currency != accounts[destination].currency { return Some(CurrencyMismatch); }
      var balance := Balance(tables.entries, source);
      if balance as real < c.decimal(req.amount) { return Some(InsufficientFunds); }
      return None;
    }

    /** The accepted transfer: post, then delete both cache keys; the second delete is skipped when the first raises. */
    method MoveAndInvalidate(req: Request, now: int, who: nat, first: Redis, second: Redis) returns (id: nat)
      requires req.Transfer? && !KeyTaken(tables.txns, req.key) && Clean()
      requires KeysUnique(tables.txns) && Joined(tables.txns, tables.entries)
        && forall id :: id in tables.txns ==> id < tables.nextId
      modifies this`newTxns, this`newEntries, this`newEvents, this`locked, this`tables, this`cache
      ensures Valid() && id == old(tables.nextId)
      ensures tables == Post(c, old(tables), req, CurrencyOf(accounts, req), now, who)
      ensures cache == AfterBothDeletes(old(cache), req, first, second)
      ensures req.source in cache <==> req.source in old(cache) && first.Fails?
      ensures req.destination != req.source ==>
        (req.destination in cache <==> req.destination in old(cache) && !(first.Works? && !second.Fails?))
      ensures old(FreshCache()) && first.Works? && second.Works? ==> FreshCache()
    {
      ghost var before := tables;
      id := PostAndCommit(req, now, who);
      PostKeepsSession(c, before, req, CurrencyOf(accounts, req), now, who);
      var raised := InvalidateBalance(req.source, first);
      if !raised {
        var _ := InvalidateBalance(req.destination, second);
      }
    }

    /** From Redis when it has the key and answers; otherwise the entries, and the cache is filled. */
    method GetBalance(account: AccountId, read: Redis, write: Redis) returns (outcome: Outcome)
      modifies this`cache
      ensures outcome ==
        if read.Works? && account in old(cache) then BalanceIs(old(cache)[account])
        else if account !in accounts then Failed(AccountNotFound)
        else BalanceIs(Balance(tables.entries, account))
      ensures forall x :: x != account ==>
        (x in cache <==> x in old(cache)) && (x in cache ==> cache[x] == old(cache)[x])
      ensures old(FreshCache()) ==> FreshCache()
      ensures old(FreshCache()) && account != c.system && outcome.BalanceIs? ==>
        outcome.cents == Balance(tables.entries, account)
    {
      if read.Works? && account in cache { return BalanceIs(cache[account]); }
      if account !in accounts { return Failed(AccountNotFound); }
      var balance := Balance(tables.entries, account);
      if !write.Fails? { cache := cache[account := balance]; }
      return BalanceIs(balance);
    }

    /** The entries of transactions created by `timestamp`; the current balance once that covers them all. */
    method GetBalanceAt(account: AccountId, timestamp: int) returns (outcome: Outcome)
      requires Valid()
      ensures outcome == if account !in accounts then Failed(AccountNotFound)
                         else BalanceIs(BalanceAt(tables.txns, tables.entries, account, timestamp))
      ensures account in accounts && (forall id :: id in tables.txns ==> tables.txns[id].createdAt <= timestamp) ==>
                outcome == BalanceIs(Balance(tables.entries, account))
    {
      if account !in accounts { return Failed(AccountNotFound); }
      if forall id :: id in tables.txns ==> tables.txns[id].createdAt <= timestamp {
        BalanceAtNow(tables.txns, tables.entries, account, timestamp);
      }
      return BalanceIs(BalanceAt(tables.txns, tables.entries, account, timestamp));
    }
  }

  /**
   * A client that sends two transfers with one key, one after the other: once the first has
   * posted, the second gets its transaction if it asks for the same movement, is refused
   * otherwise, and writes nothing.
   */
  method TransferTwice(session: LedgerSession, one: Request, two: Request, now: int, later: int, who: nat)
    returns (first: Outcome, second: Outcome)
    requires session.Valid() && CollisionFree(session.c.digest)
    requires one.Transfer? && two.Transfer? && one.key == two.key
    modifies session
    ensures first.Posted? ==>
      second == if one.source == two.source && one.destination == two.destination && one.amount == two.amount
                then Replayed(first.txn) else Failed(KeyUsedForDifferentRequest)
    ensures first.Posted? ==> |session.tables.entries| == |old(session.tables.entries)| + 2
  {
    first := session.CreateTransfer(one.source, one.destination, one.amount, one.key, now, who, None, Works, Works);
    ghost var txns := session.tables.txns;
    second := session.CreateTransfer(two.source, two.destination, two.amount, two.key, later, who, None, Works, Works);
    if first.Posted? {
      assert first.txn in txns && txns[first.txn].key == Some(two.key);
      AnswerByRequest(session.c, txns, first.txn, two, one);
    }
  }

  /** The stored fingerprint answers for the request it was computed from. */
  lemma AnswerByRequest(c: Config, txns: map<nat, Txn>, id: nat, req: Request, poster: Request)
    requires CollisionFree(c.digest) && req.Transfer? && poster.Transfer? && id in txns
    requires txns[id].requestHash ==
      Some(c.digest(UuidText(poster.source) + ":" + UuidText(poster.destination) + ":" + poster.amount))
    ensures RetryAnswer(c, txns, id, req)
         == if SameMovement(poster, req) then Replayed(id) else Failed(KeyUsedForDifferentRequest)
  {
    SameHashSameRequest(c.digest, req.source, req.destination, req.amount,
                        poster.source, poster.destination, poster.amount);
  }

  // ---------------------------------------------------------------- each refusal has its reason

  predicate IsActive(accounts: map<AccountId, Account>, a: AccountId) {
    a in accounts && accounts[a].status == Active
  }

  lemma DepositRefusals(c: Config, accounts: map<AccountId, Account>, entries: seq<Entry>, a: AccountId, amount: string)
    ensures var r := Refusal(c, accounts, entries, Deposit(a, amount));
      && (r == Some(AccountNotFound) <==> a !in accounts)
      && (r == Some(AccountNotActive) <==> a in accounts && !IsActive(accounts, a))
      && (r == Some(SystemCashNotFound) <==> IsActive(accounts, a) && c.system !in accounts)
      && (r == None <==> IsActive(accounts, a) && c.system in accounts)
  {
  }

  /** The funds are checked before SYSTEM_CASH is looked up. */
  lemma WithdrawalRefusals(c: Config, accounts: map<AccountId, Account>, entries: seq<Entry>,
                           a: AccountId, amount: string)
    ensures var r := Refusal(c, accounts, entries, Withdrawal(a, amount));
      var short := Balance(entries, a) as real < c.decimal(amount);
      && (r == Some(AccountNotFound) <==> a !in accounts)
      && (r == Some(AccountNotActive) <==> a in accounts && !IsActive(accounts, a))
      && (r == Some(InsufficientFunds) <==> IsActive(accounts, a) && short)
      && (r == Some(SystemCashNotFound) <==> IsActive(accounts, a) && !short && c.system !in accounts)
      && (r == None <==> IsActive(accounts, a) && !short && c.system in accounts)
  {
  }

  lemma TransferRefusals(c: Config, accounts: map<AccountId, Account>, entries: seq<Entry>,
                         a: AccountId, b: AccountId, amount: string, key: string)
    ensures var r := Refusal(c, accounts, entries, Transfer(a, b, amount, key));
      var found, active := a in accounts && b in accounts, IsActive(accounts, a) && IsActive(accounts, b);
      var short := Balance(entries, a) as real < c.decimal(amount);
      && (r == Some(SameAccount) <==> a == b)
      && (r == Some(AccountNotFound) <==> a != b && !found)
      && (r == Some(AccountNotActive) <==> a != b && found && !active)
      && (r == Some(CurrencyMismatch) <==> a != b && active && accounts[a].currency != accounts[b].currency)
      && (r == Some(InsufficientFunds) <==> a != b && active && accounts[a].currency == accounts[b].currency && short)
      && (r == None <==> a != b && active && accounts[a].currency == accounts[b].currency && !short)
  {
  }

  lemma BothFound(found: set<AccountId>, a: AccountId, b: AccountId)
    requires found <= {a, b} && |found| == 2
    ensures a in found && b in found
  {
    if a !in found { assert found <= {b}; SubsetSize(found, {b}); }
    if b !in found { assert found <= {a}; SubsetSize(found, {a}); }
  }

  lemma SubsetSize(a: set<AccountId>, b: set<AccountId>)
    requires a <= b
    ensures |a| <= |b|
  {
    assert b == a + (b - a);
  }

  /**
   * A posting keeps the session's tables in order, and moves the balance of nobody it does not
   * name, SYSTEM_CASH apart.
   */
  lemma PostKeepsSession(c: Config, t: Tables, req: Request, currency: string, now: int, who: nat)
    requires Posts(req) && KeysUnique(t.txns) && Joined(t.txns, t.entries)
      && forall id :: id in t.txns ==> id < t.nextId
    requires req.Transfer? ==> !KeyTaken(t.txns, req.key)
    ensures var t' := Post(c, t, req, currency, now, who);
      && KeysUnique(t'.txns) && Joined(t'.txns, t'.entries) && (forall id :: id in t'.txns ==> id < t'.nextId)
      && forall x: AccountId :: x != c.system && x !in TouchedByCommit(req) ==>
           Balance(t'.entries, x) == Balance(t.entries, x)
  {
    var t' := Post(c, t, req, currency, now, who);
    forall x: AccountId | x != c.system && x !in TouchedByCommit(req)
      ensures Balance(t'.entries, x) == Balance(t.entries, x) {
      PostMovesMoney(c, t, req, currency, now, who, x, 0);
    }
  }
}
