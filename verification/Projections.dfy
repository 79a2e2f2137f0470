/** How the consumer turns a ledger event into balance changes (apply_balance_projection, _apply_delta). */
module Projections {
  import opened Prelude
  import opened Money
  import opened LedgerTables
  import opened LedgerBooks

  datatype Change = Change(account: AccountId, cents: int)

  type Balances = map<AccountId, int>

  /** The upserts an event leads to; None when reading the payload raises. Unknown types change nothing. */
  function Changes(c: Config, e: Event): Option<seq<Change>> {
    var amount := AmountOf(e.payload);
    match e.kind
    case DepositPosted => (
      match (Party(e.payload, KeyAccountId), amount)
      case (Some(a), Some(t)) => Some([Change(a, RoundCents(c.decimal(t)))])
      case _ => None)
    case WithdrawalPosted => (
      match (Party(e.payload, KeyAccountId), amount)
      case (Some(a), Some(t)) => Some([Change(a, RoundCents(-c.decimal(t)))])
      case _ => None)
    case TransferPosted => (
      match (Party(e.payload, KeySourceAccountId), Party(e.payload, KeyDestinationAccountId), amount)
      case (Some(a), Some(b), Some(t)) =>
        Some([Change(a, RoundCents(-c.decimal(t))), Change(b, RoundCents(c.decimal(t)))])
      case _ => None)
    case OtherEvent(_) => Some([])
  }

  predicate Decodes(c: Config, e: Event) { Changes(c, e).Some? }

  function BalanceIn(p: Balances, x: AccountId): int {
    if x in p then p[x] else 0
  }

  /** INSERT ... ON CONFLICT DO UPDATE SET balance = balance + excluded.balance. */
  function Upsert(p: Balances, ch: Change): Balances {
    if ch.account in p then p[ch.account := p[ch.account] + ch.cents] else p[ch.account := ch.cents]
  }

  function ApplyAll(p: Balances, changes: seq<Change>): Balances {
    if changes == [] then p else Upsert(ApplyAll(p, changes[..|changes| - 1]), changes[|changes| - 1])
  }

  function SumFor(changes: seq<Change>, x: AccountId): int {
    if changes == [] then 0
    else
      var last := changes[|changes| - 1];
      SumFor(changes[..|changes| - 1], x) + if last.account == x then last.cents else 0
  }

  /** What one processing of the event adds to the projected balance of x. */
  function ProjectedDelta(c: Config, e: Event, x: AccountId): int {
    match Changes(c, e)
    case None => 0
    case Some(changes) => SumFor(changes, x)
  }

  lemma {:induction false} ApplyAllAdds(p: Balances, changes: seq<Change>, x: AccountId)
    ensures BalanceIn(ApplyAll(p, changes), x) == BalanceIn(p, x) + SumFor(changes, x)
  {
    if changes != [] { ApplyAllAdds(p, changes[..|changes| - 1], x); }
  }

  /** Of the three kinds of row the ledger emits, exactly the transfers cannot be decoded: their keys differ. */
  lemma EmittedTransfersDoNotDecode(c: Config, e: Event)
    requires Emitted(e)
    ensures Decodes(c, e) <==> !e.kind.TransferPosted?
  {
  }

  /** A decoded ledger event changes every customer's projection exactly as it changed the ledger. */
  lemma ProjectionAgreesWithLedger(c: Config, e: Event, x: AccountId)
    requires Emitted(e) && Decodes(c, e) && x != c.system
    ensures ProjectedDelta(c, e, x) == Effect(c, e, x)
  {
    RoundingLaws(c.decimal(AmountOf(e.payload).value), 0.0, 0);
    var changes := Changes(c, e).value;
    assert changes[..0] == [];
    assert SumFor(changes, x) == SumFor([], x) + if changes[0].account == x then changes[0].cents else 0;
  }

  /** SYSTEM_CASH is the one account they can disagree on: the events name only the customer's side. */
  lemma SystemCashIsNotProjected(c: Config, e: Event)
    requires Emitted(e) && Decodes(c, e)
    ensures ProjectedDelta(c, e, c.system) == Effect(c, e, c.system)
       <==> RoundCents(c.decimal(AmountOf(e.payload).value)) == 0
  {
    RoundingLaws(c.decimal(AmountOf(e.payload).value), 0.0, 0);
    var changes := Changes(c, e).value;
    assert changes[..0] == [];
    assert SumFor(changes, c.system)
      == SumFor([], c.system) + if changes[0].account == c.system then changes[0].cents else 0;
  }

  // ---------------------------------------------------------------- events with the consumer's own keys

  /**
   * A transfer event with the keys the consumer reads: the account under the source key loses the
   * rounded amount, the one under the destination key gains it, and nobody else is touched. With
   * one account under both keys nothing changes.
   */
  lemma TransferEventMoves(c: Config, e: Event, a: AccountId, b: AccountId, amount: string, x: AccountId)
    requires e.kind == TransferPosted
    requires KeySourceAccountId in e.payload && e.payload[KeySourceAccountId] == IdField(a)
    requires KeyDestinationAccountId in e.payload && e.payload[KeyDestinationAccountId] == IdField(b)
    requires KeyAmount in e.payload && e.payload[KeyAmount] == AmountField(amount)
    ensures Decodes(c, e)
    ensures ProjectedDelta(c, e, x) ==
      if a == b then 0
      else if x == a then -RoundCents(c.decimal(amount))
      else if x == b then RoundCents(c.decimal(amount))
      else 0
  {
    RoundingLaws(c.decimal(amount), 0.0, 0);
    var changes := Changes(c, e).value;
    assert |changes| == 2 && changes[..1][..0] == [] && changes[..1][0] == changes[0];
    assert SumFor(changes[..1], x) == if changes[0].account == x then changes[0].cents else 0;
  }

  /** A deposit event credits its account, a withdrawal event debits it. */
  lemma AccountEventMoves(c: Config, e: Event, a: AccountId, amount: string, x: AccountId)
    requires e.kind == DepositPosted || e.kind == WithdrawalPosted
    requires KeyAccountId in e.payload && e.payload[KeyAccountId] == IdField(a)
    requires KeyAmount in e.payload && e.payload[KeyAmount] == AmountField(amount)
    ensures Decodes(c, e)
    ensures ProjectedDelta(c, e, x) ==
      if x != a then 0
      else if e.kind == DepositPosted then RoundCents(c.decimal(amount))
      else -RoundCents(c.decimal(amount))
  {
    RoundingLaws(c.decimal(amount), 0.0, 0);
    var changes := Changes(c, e).value;
    assert changes[..0] == [];
    assert SumFor(changes, x) == SumFor([], x) + if changes[0].account == x then changes[0].cents else 0;
  }

  /**
   * An event raises exactly when a key its type needs is missing; a type the consumer does not
   * know changes nothing.
   */
  lemma DecodesWithItsKeys(c: Config, e: Event, x: AccountId)
    ensures var p := e.payload;
      var amount := KeyAmount in p && p[KeyAmount].AmountField?;
      Decodes(c, e) <==>
        match e.kind
        case TransferPosted =>
          && KeySourceAccountId in p && p[KeySourceAccountId].IdField?
          && KeyDestinationAccountId in p && p[KeyDestinationAccountId].IdField? && amount
        case OtherEvent(_) => true
        case _ => KeyAccountId in p && p[KeyAccountId].IdField? && amount
    ensures e.kind.OtherEvent? ==> ProjectedDelta(c, e, x) == 0
  {
  }
}
