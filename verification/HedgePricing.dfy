/**
 * Caps as the pricing engine rounds them, against the payoff as the ledger truncates it: whether the
 * clamp in settle ever does anything.
 */
module HedgePricing {
  import opened FixedPoint
  import opened PositionValue

  const E6: real := 1_000_000.0

  function EntryValueUsdc(entry: real): int { (entry * E6).Floor }

  /** Both caps are rounded up. */
  function CapDownUsdc(entry: real, atLower: real): int { Ceil(Max(0.0, entry - atLower) * E6) }

  function CapUpUsdc(entry: real, atUpper: real): int { Ceil(Max(0.0, atUpper - entry) * E6) }

  /** The payoff before the clamp: the stored entry value is already floored. */
  function RawPayoff(entry: real, value: real): int {
    Trunc((EntryValueUsdc(entry) as real / E6 - value) * E6)
  }

  ghost predicate ClampIdle(entry: real, atLower: real, atUpper: real, value: real) {
    -CapUpUsdc(entry, atUpper) <= RawPayoff(entry, value) <= CapDownUsdc(entry, atLower)
  }

  /** The caps are the least whole micro-dollars that cover the move to the end of the range. */
  lemma CapsCover(entry: real, atLower: real, atUpper: real)
    ensures var down := CapDownUsdc(entry, atLower);
            if entry <= atLower then down == 0 else down as real - 1.0 < (entry - atLower) * 1_000_000.0 <= down as real
    ensures var up := CapUpUsdc(entry, atUpper);
            if atUpper <= entry then up == 0 else up as real - 1.0 < (atUpper - entry) * 1_000_000.0 <= up as real
  {
    assert Max(0.0, entry - atLower) == if entry <= atLower then 0.0 else entry - atLower;
    assert Max(0.0, atUpper - entry) == if atUpper <= entry then 0.0 else atUpper - entry;
  }

  /** The raw payoff is the truncation of the floored entry value less the value, in micro-USDC. */
  lemma RawPayoffIs(entry: real, value: real)
    ensures RawPayoff(entry, value) == Trunc(EntryValueUsdc(entry) as real - value * E6)
  {
    assert (EntryValueUsdc(entry) as real / E6 - value) * E6 == EntryValueUsdc(entry) as real - value * E6;
  }

  /** A real above -n - 1 truncates to at least -n, one at most n to at most n. */
  lemma TruncBetween(x: real, low: nat, high: nat)
    requires -(low as real) - 1.0 < x <= high as real
    ensures -(low as int) <= Trunc(x) <= high
  {
  }

  lemma CeilAbove(x: real)
    requires x >= 0.0
    ensures Ceil(x) >= 0 && x <= Ceil(x) as real
  {
  }

  /**
   * Whatever the valuation, at a settlement value between those at the two ends of the range the raw
   * payoff already lies within the rounded caps, although the entry value it starts from was floored.
   */
  lemma ClampIsIdle(entry: real, atLower: real, atUpper: real, value: real)
    requires atLower <= value <= atUpper
    ensures ClampIdle(entry, atLower, atUpper, value)
  {
    var up, down := Max(0.0, atUpper - entry) * E6, Max(0.0, entry - atLower) * E6;
    RawPayoffIs(entry, value);
    CeilAbove(up);
    CeilAbove(down);
    var x := EntryValueUsdc(entry) as real - value * E6;
    assert -up - 1.0 < x <= down;
    TruncBetween(x, CapUpUsdc(entry, atUpper), CapDownUsdc(entry, atLower));
  }

  /** On the exact value curve the settlement value is always between the ends, so the clamp is dead code. */
  lemma ClampIsDeadCode(s0: real, sT: real, liquidity: real, a: real, b: real)
    requires 0.0 <= sT && 0.0 <= a <= b && liquidity >= 0.0
    ensures var v := s => ClPositionValue(s, liquidity, a, b);
            ClampIdle(v(s0), v(a), v(b), v(Clamp(sT, a, b)))
  {
    hide ClPositionValue, ClampIdle;
    RisesContinuously(a, Clamp(sT, a, b), liquidity, a, b);
    RisesContinuously(Clamp(sT, a, b), b, liquidity, a, b);
    ClampIsIdle(ClPositionValue(s0, liquidity, a, b), ClPositionValue(a, liquidity, a, b),
                ClPositionValue(b, liquidity, a, b), ClPositionValue(Clamp(sT, a, b), liquidity, a, b));
  }

  /** Rounding the collateral down instead would not do: half a micro-dollar of upside already exceeds it. */
  lemma RoundingDownFallsShort()
    ensures var entry, top := 1.0000005, 1.000001;
            RawPayoff(entry, top) < -((Max(0.0, top - entry) * E6).Floor)
  {
    RawPayoffIs(1.0000005, 1.000001);
    assert 1.0000005 * E6 == 1000000.5 && 1.000001 * E6 == 1000001.0;
    assert EntryValueUsdc(1.0000005) == 1000000;
  }
}
