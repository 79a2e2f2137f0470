/**
 * The text that a transfer's idempotency fingerprint is computed from, "from:to:amount",
 * with both identifiers in the fixed 36-character form of section 4 of RFC 9562.
 */
module RequestHash {
  import opened Prelude

  function HexDigit(d: nat): (c: char)
    requires d < 16
  {
    if d < 10 then '0' + d as char else 'a' + (d - 10) as char
  }

  function Hex(x: nat, digits: nat): (s: string)
    ensures |s| == digits
  {
    if digits == 0 then "" else Hex(x / 16, digits - 1) + [HexDigit(x % 16)]
  }

  function Pow16(n: nat): (r: nat)
    ensures r >= 1
  {
    if n == 0 then 1 else 16 * Pow16(n - 1)
  }

  function UuidText(id: AccountId): (s: string)
    ensures |s| == 36
  {
    var h := Hex(id, 32);
    h[..8] + "-" + h[8..12] + "-" + h[12..16] + "-" + h[16..20] + "-" + h[20..]
  }

  function TransferText(source: AccountId, destination: AccountId, amount: string): string {
    UuidText(source) + ":" + UuidText(destination) + ":" + amount
  }

  /** Reading the text back: lower-case hexadecimal, most significant digit first. */
  function DigitValue(c: char): nat {
    if '0' <= c <= '9' then c as nat - '0' as nat
    else if 'a' <= c <= 'f' then 10 + (c as nat - 'a' as nat)
    else 16
  }

  function HexValue(s: string): nat {
    if s == "" then 0 else 16 * HexValue(s[..|s| - 1]) + DigitValue(s[|s| - 1])
  }

  lemma {:induction false} HexReadsBack(x: nat, digits: nat)
    requires x < Pow16(digits)
    ensures HexValue(Hex(x, digits)) == x
    ensures forall i :: 0 <= i < digits ==> DigitValue(Hex(x, digits)[i]) < 16
  {
    if digits > 0 {
      HexReadsBack(x / 16, digits - 1);
      assert Hex(x, digits)[..digits - 1] == Hex(x / 16, digits - 1);
    }
  }

  lemma Pow16Of32()
    ensures Pow16(32) == UUID_LIMIT
  {
    assert Pow16(8) == 0x1_0000_0000;
    assert Pow16(16) == 0x1_0000_0000_0000_0000;
    assert Pow16(24) == 0x1_0000_0000_0000_0000_0000_0000;
  }

  /** The digits are what remains when the four hyphens are dropped. */
  lemma DigitsOfText(id: AccountId)
    ensures var s := UuidText(id); Hex(id, 32) == s[..8] + s[9..13] + s[14..18] + s[19..23] + s[24..]
  {
    var s, h := UuidText(id), Hex(id, 32);
    assert s[..8] == h[..8];
    assert s[9..13] == h[8..12];
    assert s[14..18] == h[12..16];
    assert s[19..23] == h[16..20];
    assert s[24..] == h[20..];
    assert h == h[..8] + h[8..12] + h[12..16] + h[16..20] + h[20..];
  }

  /** 8-4-4-4-12 digits with hyphens between, and the digits read back are the identifier. */
  lemma UuidTextReadsBack(id: AccountId)
    ensures var s := UuidText(id);
      && s[8] == s[13] == s[18] == s[23] == '-'
      && HexValue(s[..8] + s[9..13] + s[14..18] + s[19..23] + s[24..]) == id
  {
    DigitsOfText(id);
    Pow16Of32();
    HexReadsBack(id, 32);
  }

  lemma UuidTextInjective(a: AccountId, b: AccountId)
    requires UuidText(a) == UuidText(b)
    ensures a == b
  {
    UuidTextReadsBack(a);
    UuidTextReadsBack(b);
  }

  /** Equal texts mean equal source, destination and amount text: the ':' separators cannot be confused. */
  lemma TransferTextInjective(s1: AccountId, d1: AccountId, a1: string, s2: AccountId, d2: AccountId, a2: string)
    requires TransferText(s1, d1, a1) == TransferText(s2, d2, a2)
    ensures s1 == s2 && d1 == d2 && a1 == a2
  {
    var t1, t2 := TransferText(s1, d1, a1), TransferText(s2, d2, a2);
    assert t1[..36] == UuidText(s1) && t1[37..73] == UuidText(d1) && t1[74..] == a1;
    assert t2[..36] == UuidText(s2) && t2[37..73] == UuidText(d2) && t2[74..] == a2;
    UuidTextInjective(s1, s2);
    UuidTextInjective(d1, d2);
  }

  ghost predicate CollisionFree(digest: string -> string) {
    forall s, t {:trigger digest(s), digest(t)} :: digest(s) == digest(t) ==> s == t
  }

  /** Equal fingerprints mean the same request, up to the printed form of the amount. */
  lemma SameHashSameRequest(digest: string -> string,
                            s1: AccountId, d1: AccountId, a1: string, s2: AccountId, d2: AccountId, a2: string)
    requires CollisionFree(digest)
    ensures digest(TransferText(s1, d1, a1)) == digest(TransferText(s2, d2, a2))
       <==> s1 == s2 && d1 == d2 && a1 == a2
  {
    if digest(TransferText(s1, d1, a1)) == digest(TransferText(s2, d2, a2)) {
      TransferTextInjective(s1, d1, a1, s2, d2, a2);
    }
  }
}
