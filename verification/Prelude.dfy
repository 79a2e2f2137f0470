/** Shared vocabulary: optional values, account identifiers, sums of counters, and a choice from a set. */
module Prelude {

  datatype Option<+T> = None | Some(value: T)

  /** A UUID is a 128-bit number; PostgreSQL and Python order UUIDs as these numbers. */
  const UUID_LIMIT: nat := 0x1_0000_0000_0000_0000_0000_0000_0000_0000

  type AccountId = x: nat | x < UUID_LIMIT

  function Total(s: seq<nat>): nat {
    if s == [] then 0 else s[0] + Total(s[1..])
  }

  lemma {:induction false} TotalUpdate(s: seq<nat>, i: nat, v: nat)
    requires i < |s|
    ensures Total(s[i := v]) + s[i] == Total(s) + v
  {
    if i == 0 {
      assert s[i := v][1..] == s[1..];
    } else {
      assert s[i := v][1..] == s[1..][i - 1 := v];
      TotalUpdate(s[1..], i - 1, v);
    }
  }

  /** Some element of the set, always the same one. */
  ghost function Pick(ids: set<nat>): nat
    requires ids != {}
    ensures Pick(ids) in ids
  {
    var id :| id in ids; id
  }
}
