/** What a settlement pays for: the payoff against the fall of the position, event by event and on the exact curve. */
module HedgePayoff {
  import opened FixedPoint
  import opened Outcomes
  import opened HedgeTypes
  import HedgeInvariants
  import opened HedgeTransitions
  import opened HedgeLedger
  import opened HedgePricing
  import opened PositionValue
  import opened Reals

  /** The settlement price held to the range of the quote. */
  ghost predicate HeldToRange(x: real, price: real, lower: real, upper: real) {
    && x <= upper
    && (lower <= upper ==> lower <= x && (price < lower ==> x == lower))
    && (price > upper || lower > upper ==> x == upper)
    && (lower <= price <= upper ==> x == price)
  }

  /**
   * A payoff in whole micro-dollars for a fall (or, if negative, a rise) of the position in exact ones: of the
   * same sign, less than one away between the caps, and at a cap from there on.
   */
  ghost predicate PaysFall(payoff: int, fall: real, capDown: nat, capUp: nat) {
    && (fall >= 0.0 ==> payoff >= 0) && (fall <= 0.0 ==> payoff <= 0)
    && (fall >= capDown as real ==> payoff == capDown)
    && (fall <= -(capUp as real) ==> payoff == -(capUp as int))
    && (-(capUp as real) <= fall <= capDown as real ==> -1.0 < payoff as real - fall < 1.0)
  }

  lemma PayoffMeans(cfg: Config, q: QuoteTerms, c: CertTerms, price: real) returns (x: real)
    ensures HeldToRange(x, price, q.priceLower, q.priceUpper)
    ensures PaysFall(Payoff(cfg, q, c, price), q.entryValue as real - cfg.positionValue(q.position, x) * 1_000_000.0,
                     c.capDown, c.capUp)
  {
    x := ClampPrice(price, q.priceLower, q.priceUpper);
    var v := cfg.positionValue(q.position, x);
    var fall := q.entryValue as real - v * 1_000_000.0;
    assert (q.entryValue as real / 1000000.0 - v) * 1000000.0 == fall;
    TruncMeans(fall);
    ClampedFall(Trunc(fall), fall, c.capDown, c.capUp);
  }

  lemma TruncMeans(x: real)
    ensures -1.0 < Trunc(x) as real - x < 1.0
    ensures x >= 0.0 ==> 0 <= Trunc(x) && Trunc(x) as real <= x
    ensures x <= 0.0 ==> Trunc(x) <= 0 && x <= Trunc(x) as real
  {
  }

  lemma ClampedFall(raw: int, fall: real, capDown: nat, capUp: nat)
    requires -1.0 < raw as real - fall < 1.0
    requires fall >= 0.0 ==> 0 <= raw && raw as real <= fall
    requires fall <= 0.0 ==> raw <= 0 && fall <= raw as real
    ensures PaysFall(HedgeInvariants.Min(HedgeInvariants.Max(raw, -(capUp as int)), capDown), fall, capDown, capUp)
  {
    if fall >= capDown as real {
      assert raw >= capDown;
    }
    if fall <= -(capUp as real) {
      assert raw <= -(capUp as int);
    }
  }

  /** The fee share is the greatest whole number of micro-dollars not above the rate times the fees. */
  lemma FeeSplitMeans(cfg: Config, fees: int)
    ensures FeeSplit(cfg, fees) as real <= cfg.feeSplitRate * fees as real < FeeSplit(cfg, fees) as real + 1.0
  {
  }

  /**
   * An accepted settlement logs one event: its payoff pays for the fall of the position since entry, its fee
   * share is the rate's of the fees handed in, and the buyer gets payoff less fee share plus collateral,
   * never below zero. A certificate whose payoff is nothing is expired, any other settled.
   */
  lemma SettlementMeans(cfg: Config, s: State, id: Key, reading: Reading, fees: int, now: int, s': State,
                        added: seq<Event>, r: Result<(int, Key), LedgerError>) returns (x: real)
    requires SettleOutcome(cfg, s, id, reading, fees, now, s', added, r) && r.Ok?
    ensures CertById(s.certs, id) < |s.certs| && QuoteById(s.quotes, id) < |s.quotes|
    ensures |added| == 1 && added[0].CertificateSettled? && added[0].quoteId == id && added[0].ts == now
    ensures var c, q, e := s.certs[CertById(s.certs, id)].terms, s.quotes[QuoteById(s.quotes, id)].terms, added[0];
      && e.reading == reading
      && HeldToRange(x, reading.price, q.priceLower, q.priceUpper)
      && PaysFall(e.payoff, q.entryValue as real - cfg.positionValue(q.position, x) * 1_000_000.0, c.capDown, c.capUp)
      && e.feeSplit as real <= cfg.feeSplitRate * fees as real < e.feeSplit as real + 1.0
      && e.amount == (if e.payoff - e.feeSplit + c.capUp >= 0 then e.payoff - e.feeSplit + c.capUp else 0)
      && (e.finalStatus == Expired <==> e.payoff == 0) && (e.finalStatus == Settled <==> e.payoff != 0)
      && r.value == (e.amount, c.buyer)
      && s'.treasury == s.treasury - e.amount && s'.totalSettled == s.totalSettled + e.amount
  {
    hide Payoff, FeeSplit, QuoteById, CertById;
    var c, q := s.certs[CertById(s.certs, id)].terms, s.quotes[QuoteById(s.quotes, id)].terms;
    x := PayoffMeans(cfg, q, c, reading.price);
    FeeSplitMeans(cfg, fees);
  }

  // ---- On the exact curve ----

  lemma SquaresOrdered(x: real, y: real, xx: real, yy: real)
    requires 0.0 <= x <= y && xx == x * x && yy == y * y
    ensures xx <= yy
  {
    SquareOrder(x, y);
  }

  /** Holding prices to a range and holding their roots to the roots of its ends is the same. */
  lemma RootsHeld(sT: real, a: real, b: real, price: real, lower: real, upper: real) returns (root: real, held: real)
    requires 0.0 <= sT && 0.0 <= a <= b
    requires price == sT * sT && lower == a * a && upper == b * b
    ensures root == Clamp(sT, a, b) && held == ClampPrice(price, lower, upper) && held == root * root
  {
    SquaresOrdered(a, b, lower, upper);
    root, held := Clamp(sT, a, b), ClampPrice(price, lower, upper);
    if sT <= a {
      SquaresOrdered(sT, a, price, lower);
      HeldAt(root, held, a, lower);
    } else if sT >= b {
      SquaresOrdered(b, sT, upper, price);
      HeldAt(root, held, b, upper);
    } else {
      SquaresOrdered(a, sT, lower, price);
      SquaresOrdered(sT, b, price, upper);
      HeldAt(root, held, sT, price);
    }
  }

  lemma HeldAt(root: real, held: real, x: real, xx: real)
    requires root == x && held == xx && xx == x * x
    ensures held == root * root
  {
  }

  /** A position valued on the curve, quoted from entry s0 with floored entry value and rounded-up caps. */
  ghost predicate OnCurve(cfg: Config, q: QuoteTerms, c: CertTerms, s0: real, liquidity: real, a: real, b: real) {
    && (forall s :: s >= 0.0 ==> cfg.positionValue(q.position, s * s) == ClPositionValue(s, liquidity, a, b))
    && q.priceLower == a * a && q.priceUpper == b * b
    && q.entryValue == EntryValueUsdc(ClPositionValue(s0, liquidity, a, b))
    && c.capDown == CapDownUsdc(ClPositionValue(s0, liquidity, a, b), ClPositionValue(a, liquidity, a, b))
    && c.capUp == CapUpUsdc(ClPositionValue(s0, liquidity, a, b), ClPositionValue(b, liquidity, a, b))
  }

  lemma CurveAt(cfg: Config, q: QuoteTerms, c: CertTerms, s0: real, liquidity: real, a: real, b: real, s: real)
    requires OnCurve(cfg, q, c, s0, liquidity, a, b) && s >= 0.0
    ensures cfg.positionValue(q.position, s * s) == ClPositionValue(s, liquidity, a, b)
  {
    hide ClPositionValue, CapDownUsdc, CapUpUsdc;
  }

  /** Within the caps the payoff is the raw one. */
  lemma Unclamped(cfg: Config, q: QuoteTerms, c: CertTerms, price: real, held: real, v0: real, v: real)
    requires q.entryValue == EntryValueUsdc(v0)
    requires held == ClampPrice(price, q.priceLower, q.priceUpper) && cfg.positionValue(q.position, held) == v
    requires -(c.capUp as int) <= RawPayoff(v0, v) <= c.capDown
    ensures Payoff(cfg, q, c, price) == RawPayoff(v0, v)
  {
  }

  lemma RawIsClose(v0: real, v: real)
    ensures (v0 - v) * E6 - 2.0 < RawPayoff(v0, v) as real < (v0 - v) * E6 + 1.0
  {
    RawPayoffIs(v0, v);
    TruncMeans(EntryValueUsdc(v0) as real - v * E6);
  }

  /**
   * For such a position the payoff of the ledger is the payoff of the swap, in micro-dollars: less than two
   * below it (the entry value was floored before, the payoff truncated after) and less than one above.
   */
  lemma PayoffOnCurve(cfg: Config, q: QuoteTerms, c: CertTerms, s0: real, sT: real, liquidity: real, a: real, b: real)
    requires 0.0 <= sT && 0.0 <= a <= b && liquidity >= 0.0
    requires OnCurve(cfg, q, c, s0, liquidity, a, b)
    ensures var exact := LhPayoff(sT, s0, liquidity, a, b) * 1_000_000.0;
            exact - 2.0 < Payoff(cfg, q, c, sT * sT) as real < exact + 1.0
  {
    hide ClPositionValue, Payoff, RawPayoff, CapDownUsdc, CapUpUsdc, EntryValueUsdc, ClampPrice;
    var x := Clamp(sT, a, b);
    var v0, v := ClPositionValue(s0, liquidity, a, b), ClPositionValue(x, liquidity, a, b);
    CurveAt(cfg, q, c, s0, liquidity, a, b, x);
    var price := sT * sT;
    var root, held := RootsHeld(sT, a, b, price, q.priceLower, q.priceUpper);
    assert held == x * x;
    ClampIsDeadCode(s0, sT, liquidity, a, b);
    Unclamped(cfg, q, c, price, held, v0, v);
    RawIsClose(v0, v);
  }
}
