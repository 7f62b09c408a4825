/** Fixed-width integer domains of the ledger: 256-bit unsigned amounts,
    160-bit account identities and the 8-bit decimals field. */
module Uint256 {

  /** 2^256 - 1, the largest amount the ledger can hold. */
  const MAX_UINT256: nat := 0xFFFF_FFFF_FFFF_FFFF_FFFF_FFFF_FFFF_FFFF_FFFF_FFFF_FFFF_FFFF_FFFF_FFFF_FFFF_FFFF

  /** An unsigned 256-bit amount in base units; arithmetic on it is checked, never wrapped. */
  type Amount = x: nat | x <= MAX_UINT256

  /** An opaque 160-bit account identifier. */
  type Address = a: nat | a < 0x1_0000_0000_0000_0000_0000_0000_0000_0000_0000_0000

  /** The distinguished zero identity, the sender of the construction-time mint event. */
  const ZERO_ADDRESS: Address := 0

  /** The type of the `decimals` metadata field. */
  type Uint8 = x: nat | x < 256

  /** 10^n, the number of base units in one display unit when `decimals` is n. */
  function Pow10(n: nat): nat
  {
    if n == 0 then 1 else 10 * Pow10(n - 1)
  }

  /** Powers of ten multiply by adding exponents. */
  lemma {:induction false} Pow10Add(a: nat, b: nat)
    ensures Pow10(a + b) == Pow10(a) * Pow10(b)
  {
    if a > 0 {
      Pow10Add(a - 1, b);
      calc {
        Pow10(a + b);
        10 * Pow10(a - 1 + b);
        10 * (Pow10(a - 1) * Pow10(b));
        (10 * Pow10(a - 1)) * Pow10(b);
        Pow10(a) * Pow10(b);
      }
    }
  }

  /** One display unit at 18 decimals is 10^18 base units. */
  lemma Pow10Eighteen()
    ensures Pow10(18) == 1_000_000_000_000_000_000
  {
    assert Pow10(3) == 1000;
    Pow10Add(3, 3);
    Pow10Add(6, 3);
    Pow10Add(9, 9);
  }
}
