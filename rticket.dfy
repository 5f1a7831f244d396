/**
 * The per-call `_rticket` parameter: `str(int(uuid.uuid1().int >> 64))`.
 * The UUID is a caller-supplied 128-bit number, since it comes from the
 * clock and the network card.
 */
module Rticket {

  const TwoTo64: nat := 0x1_0000_0000_0000_0000
  const TwoTo128: nat := 0x1_0000_0000_0000_0000_0000_0000_0000_0000

  predicate IsDigit(c: char) {
    '0' <= c <= '9'
  }

  function DigitChar(d: nat): (c: char)
    requires d < 10
    ensures IsDigit(c) && c as int - '0' as int == d
  {
    ('0' as int + d) as char
  }

  /** Python's `str(n)` for a non-negative integer: decimal digits, no leading zero. */
  function Decimal(n: nat): (s: string)
    decreases n
    ensures |s| >= 1
    ensures forall i :: 0 <= i < |s| ==> IsDigit(s[i])
    ensures s[0] == '0' ==> n == 0 && s == "0"
  {
    if n < 10 then [DigitChar(n)] else Decimal(n / 10) + [DigitChar(n % 10)]
  }

  /** The value of a string of decimal digits. */
  function ParseDecimal(s: string): nat
    requires forall i :: 0 <= i < |s| ==> IsDigit(s[i])
    decreases |s|
  {
    if s == [] then 0
    else
      assert IsDigit(s[|s| - 1]);
      ParseDecimal(s[..|s| - 1]) * 10 + (s[|s| - 1] as int - '0' as int)
  }

  /** Reading back what `Decimal` writes gives the number again. */
  lemma {:induction false} ParseDecimalOfDecimal(n: nat)
    ensures ParseDecimal(Decimal(n)) == n
    decreases n
  {
    if n >= 10 {
      var s := Decimal(n);
      assert s[..|s| - 1] == Decimal(n / 10);
      ParseDecimalOfDecimal(n / 10);
    }
  }

  /** `x >> 64` for a non-negative `x`: Python shifts a non-negative int by flooring division. */
  function ShiftRight64(x: nat): (q: nat)
    ensures x < TwoTo128 ==> q < TwoTo64
  {
    var q := x / TwoTo64;
    assert TwoTo128 == TwoTo64 * TwoTo64;
    assert q * TwoTo64 <= x;
    q
  }

  /** `_generate_rticket`, with the UUID's 128-bit value as input. */
  function Generate(uuidInt: nat): (t: string)
    requires uuidInt < TwoTo128
    ensures |t| >= 1 && forall i :: 0 <= i < |t| ==> IsDigit(t[i])
    ensures ParseDecimal(t) < TwoTo64
    ensures ParseDecimal(t) == uuidInt / TwoTo64
    ensures t[0] == '0' ==> t == "0"
  {
    ParseDecimalOfDecimal(ShiftRight64(uuidInt));
    Decimal(ShiftRight64(uuidInt))
  }
}
