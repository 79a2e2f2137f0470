/**
 * Money as the database stores it. A request may carry an amount of any scale; the columns
 * are NUMERIC(20, 2) and NUMERIC(18, 2), so PostgreSQL rounds what it stores to whole cents,
 * ties away from zero. Amounts here are measured in cents.
 */
module Money {

  function RoundCents(v: real): (c: int)
    ensures v >= 0.0 ==> c >= 0
  {
    if v >= 0.0 then (v + 0.5).Floor else -((-v + 0.5).Floor)
  }

  /** The three facts the ledger rests on: odd, monotone, exact on whole cents. */
  lemma RoundingLaws(v: real, w: real, n: int)
    ensures RoundCents(-v) == -RoundCents(v)
    ensures v <= w ==> RoundCents(v) <= RoundCents(w)
    ensures RoundCents(n as real) == n
  {
  }

  /** The nearest whole cent, and of two equally near the one away from zero. */
  lemma RoundsToNearestCent(v: real)
    ensures -0.5 <= RoundCents(v) as real - v <= 0.5
    ensures RoundCents(v) as real - v == 0.5 ==> v > 0.0
    ensures RoundCents(v) as real - v == -0.5 ==> v < 0.0
  {
  }

  /** The funds check compares the stored balance with the unrounded amount; that is enough for the rounded debit. */
  lemma CheckedDebitIsCovered(balance: int, amount: real)
    requires amount <= balance as real
    ensures RoundCents(-amount) + balance >= 0
    ensures RoundCents(amount) <= balance
  {
    RoundingLaws(amount, balance as real, balance);
  }
}
