/** The 32-bit tick type, and how it relates to unbounded real time. */
module Ticks {
  /// An absolute time is an unbounded integer.  The kernel only ever holds its low 32 bits; the
  /// high part is the epoch, which the kernel keeps by swapping two lists.

  /// Number of distinct tick values (32-bit ticks).
  const TICK_MODULUS := 0x1_0000_0000
  /// portMAX_DELAY.
  const MAX_DELAY := 0xFFFF_FFFF

  type Tick = t: int | 0 <= t < 0x1_0000_0000

  /** What a conversion to TickType_t leaves of an unbounded integer. */
  function Wrap(x: int): Tick {
    x % TICK_MODULUS
  }

  /** How often the tick count has overflowed at absolute time x. */
  function Epoch(x: int): int {
    x / TICK_MODULUS
  }

  lemma WrapEpoch(x: int)
    ensures x == Epoch(x) * TICK_MODULUS + Wrap(x)
  {
  }

  /** Epoch and tick value determine the absolute time. */
  lemma EpochIsUnique(x: int, e: int, t: Tick)
    requires x == e * TICK_MODULUS + t
    ensures Epoch(x) == e && Wrap(x) == t
  {
  }

  /** 32-bit addition is addition of absolute times. */
  lemma WrapAdd(x: int, d: int)
    ensures Wrap(Wrap(x) + d) == Wrap(x + d)
  {
    WrapEpoch(x);
    EpochIsUnique(x + d, Epoch(x) + Epoch(Wrap(x) + d), Wrap(Wrap(x) + d));
  }

  /** Adding less than a modulus crosses at most one epoch, exactly when the tick value drops. */
  lemma EpochAfter(x: int, d: int)
    requires 0 <= d < TICK_MODULUS
    ensures Epoch(x + d) == if Wrap(x + d) < Wrap(x) then Epoch(x) + 1 else Epoch(x)
  {
  }

  /** 32-bit subtraction subtracts modulo 2^32, so it is exact for absolute times less than one
  modulus apart. */
  lemma WrapOfDifference(x: int, y: int)
    ensures Wrap(Wrap(x) - Wrap(y)) == Wrap(x - y)
    ensures 0 <= x - y < TICK_MODULUS ==> Wrap(x - y) == x - y
  {
  }
}
