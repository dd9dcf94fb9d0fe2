/** What every accepted request of the pool moves, in the request's own numbers. */
module PoolTerms {
  import opened FixedPoint
  import opened IntegerDivision
  import opened Outcomes
  import opened PositionValue
  import opened ProtectionPool
  import opened PoolRuns
  import opened PoolSafety
  import opened Reals

  // -------------------------------------------------------------------------
  // Settlement
  // -------------------------------------------------------------------------

  lemma TruncMeans(x: real)
    ensures -1.0 < Trunc(x) as real - x < 1.0
    ensures x >= 0.0 ==> 0 <= Trunc(x) == x.Floor
    ensures x <= 0.0 ==> Trunc(x) <= 0
  {
  }

  /**
   * The payout is the payoff of the swap in micro-dollars, less than one away and of the same sign. It is
   * the whole cap at and below the lower end of the range, and not negative at or below entry.
   */
  lemma PayoutMeans(b: Book, c: Certificate, sT: real)
    requires PositionsSound(b) && Written(b, c) && sT >= 0.0
    ensures var liquidity := b.positions[PositionAt(b.positions, c.mint)].liquidity;
      var payout, exact := PayoutUsdc(c, liquidity, sT), LhPayoff(sT, c.entry, liquidity, c.lower, c.upper) * 1_000_000.0;
      && -1.0 < payout as real - exact < 1.0
      && (exact >= 0.0 ==> payout >= 0) && (exact <= 0.0 ==> payout <= 0)
      && (sT <= c.lower ==> payout == c.cap)
      && (sT <= c.entry ==> payout >= 0)
  {
    hide ClPositionValue;
    var liquidity := b.positions[PositionAt(b.positions, c.mint)].liquidity;
    var x := LhPayoff(sT, c.entry, liquidity, c.lower, c.upper);
    TruncMeans(x * E6);
    PayoffReachesCaps(sT, c.entry, liquidity, c.lower, c.upper);
    if sT <= c.entry {
      PayoffFalls(sT, c.entry, c.entry, liquidity, c.lower, c.upper);
      assert LhPayoff(c.entry, c.entry, liquidity, c.lower, c.upper) == 0.0;
      assert x * E6 >= 0.0;
    }
  }

  /** A lower settlement price never pays less. */
  lemma LowerPaysNoLess(b: Book, c: Certificate, sT: real, tT: real)
    requires PositionsSound(b) && Written(b, c) && 0.0 <= sT <= tT
    ensures var liquidity := b.positions[PositionAt(b.positions, c.mint)].liquidity;
            PayoutUsdc(c, liquidity, tT) <= PayoutUsdc(c, liquidity, sT)
  {
    hide LhPayoff;
    var liquidity := b.positions[PositionAt(b.positions, c.mint)].liquidity;
    var x, y := LhPayoff(sT, c.entry, liquidity, c.lower, c.upper), LhPayoff(tT, c.entry, liquidity, c.lower, c.upper);
    PayoffFalls(sT, tT, c.entry, liquidity, c.lower, c.upper);
    Scale(E6, y, x);
    TruncRises(y * E6, x * E6);
  }

  lemma TruncRises(x: real, y: real)
    requires x <= y
    ensures Trunc(x) <= Trunc(y)
  {
  }

  /**
   * An accepted settlement closes the first certificate of the position, at or after its expiry, for that
   * payout and the rate's share of the fees; the reserves pay the one and keep the other, and cap and
   * position are free again.
   */
  lemma SettlementMeans(cfg: PoolConfig, b: Book, mint: Address, sT: real, fees: nat, now: int)
    requires Inv(cfg, b) && sT >= 0.0 && Settle(b, mint, sT, fees, now).Ok?
    ensures CertificateAt(b.certificates, mint) < |b.certificates| && PositionAt(b.positions, mint) < |b.positions|
    ensures var j, i, b' := CertificateAt(b.certificates, mint), PositionAt(b.positions, mint), Settle(b, mint, sT, fees, now).value;
      var c, c' := b.certificates[j], b'.certificates[j];
      var exact := LhPayoff(sT, c.entry, b.positions[i].liquidity, c.lower, c.upper) * 1_000_000.0;
      && c.status.Active? && now >= c.expiry
      && c' == c.(status := c'.status, payout := c'.payout, feeIncome := c'.feeIncome)
      && -1.0 < c'.payout as real - exact < 1.0
      && (exact >= 0.0 ==> c'.payout >= 0) && (exact <= 0.0 ==> c'.payout <= 0)
      && (sT <= c.lower ==> c'.payout == c.cap) && (sT <= c.entry ==> c'.payout >= 0)
      && c'.feeIncome as real <= c.feeSplitRate * fees as real < c'.feeIncome as real + 1.0
      && c'.status == (if c'.payout == 0 then Expired else Settled)
      && b' == b.(reserves := b.reserves - c'.payout + c'.feeIncome, activeCap := b.activeCap - c.cap,
                  certificates := b.certificates[j := c'], positions := b.positions[i := b.positions[i].(guarded := false)])
  {
    hide Settle, PayoutUsdc, FeeIncome, LhPayoff, Written, Inv;
    SettleMoves(cfg, b, mint, sT, fees, now);
    var c := b.certificates[CertificateAt(b.certificates, mint)];
    PayoutMeans(b, c, sT);
    FeeIncomeMeans(c, fees);
  }

  lemma FeeIncomeMeans(c: Certificate, fees: nat)
    ensures FeeIncome(c, fees) as real <= c.feeSplitRate * fees as real < FeeIncome(c, fees) as real + 1.0
  {
  }

  lemma SettleMoves(cfg: PoolConfig, b: Book, mint: Address, sT: real, fees: nat, now: int)
    requires Inv(cfg, b) && Settle(b, mint, sT, fees, now).Ok?
    ensures CertificateAt(b.certificates, mint) < |b.certificates| && PositionAt(b.positions, mint) < |b.positions|
    ensures var j, i := CertificateAt(b.certificates, mint), PositionAt(b.positions, mint);
      var c := b.certificates[j];
      var payout, income := PayoutUsdc(c, b.positions[i].liquidity, sT), FeeIncome(c, fees);
      && PositionsSound(b) && Written(b, c) && c.mint == mint && c.status.Active? && now >= c.expiry
      && Settle(b, mint, sT, fees, now).value
         == b.(reserves := b.reserves - payout + income, activeCap := b.activeCap - c.cap,
               certificates := b.certificates[j := c.(status := if payout == 0 then Expired else Settled, payout := payout,
                                                      feeIncome := income)],
               positions := b.positions[i := b.positions[i].(guarded := false)])
  {
    hide PayoutUsdc, FeeIncome, CapUsdc, SharesAddUp, CapsAddUp, Covered, OneActivePerPosition, ClosedProperly;
    var j := CertificateAt(b.certificates, mint);
    assert Written(b, b.certificates[j]);
  }

  // -------------------------------------------------------------------------
  // Shares
  // -------------------------------------------------------------------------

  /**
   * A deposit is accepted exactly when it buys at least one share. It mints as many as it pays for at the
   * price of the moment, rounded down: one a micro-dollar in an empty pool.
   */
  lemma DepositMeans(cfg: PoolConfig, b: Book, owner: Address, amount: int)
    requires Inv(cfg, b)
    ensures Deposit(b, owner, amount).Ok?
            <==> amount > 0 && (b.totalShares == 0 || b.reserves == 0 || amount * b.totalShares >= b.reserves)
    ensures Deposit(b, owner, amount).Ok? ==>
      var b' := Deposit(b, owner, amount).value;
      var minted := b'.totalShares - b.totalShares;
      && (if b.totalShares == 0 || b.reserves == 0 then minted == amount
          else minted * b.reserves <= amount * b.totalShares < (minted + 1) * b.reserves)
      && b' == b.(reserves := b.reserves + amount, totalShares := b'.totalShares, shares := b'.shares)
      && SharesOf(b'.shares, owner) == SharesOf(b.shares, owner) + minted
      && forall other :: other != owner ==> SharesOf(b'.shares, other) == SharesOf(b.shares, other)
  {
    OwnedAtMostTotal(b, owner);
    if b.totalShares != 0 && b.reserves != 0 {
      FloorMeans(amount * b.totalShares, b.reserves);
      var q := SharesFor(b, amount);
      if q <= 0 { Times(q + 1, 1, b.reserves); } else { Times(1, q, b.reserves); }
    }
  }

  lemma FloorMeans(x: int, d: int)
    requires d > 0
    ensures x / d * d <= x < (x / d + 1) * d
  {
  }

  /** A withdrawal pays what the burned shares are worth, rounded down. */
  lemma WithdrawalMeans(cfg: PoolConfig, b: Book, owner: Address, burned: int)
    requires Inv(cfg, b) && Defined(cfg, b, owner) && Withdraw(cfg, b, owner, burned).Ok?
    ensures var b' := Withdraw(cfg, b, owner, burned).value;
      var paid := b.reserves - b'.reserves;
      && paid * b.totalShares <= burned * b.reserves < (paid + 1) * b.totalShares
      && b' == b.(reserves := b'.reserves, totalShares := b.totalShares - burned, shares := b'.shares)
      && SharesOf(b'.shares, owner) == SharesOf(b.shares, owner) - burned
      && forall other :: other != owner ==> SharesOf(b'.shares, other) == SharesOf(b.shares, other)
  {
    WithdrawBounded(cfg, b, owner, burned);
    FloorMeans(burned * b.reserves, b.totalShares);
  }

  /** The share price of a receipt is a million shares' worth, rounded down; a dollar in an empty pool. */
  lemma SharePriceMeans(reserves: int, totalShares: int)
    requires reserves >= 0 && totalShares >= 0
    ensures var price := SharePrice(reserves, totalShares);
            if totalShares == 0 then price == 1_000_000
            else price * totalShares <= reserves * 1_000_000 < (price + 1) * totalShares
  {
    if totalShares > 0 {
      FloorMeans(reserves * 1_000_000, totalShares);
    }
  }

  // -------------------------------------------------------------------------
  // Positions and certificates
  // -------------------------------------------------------------------------

  /** A position is registered exactly when none is on its mint, and released exactly by its owner, locked and free. */
  lemma EscrowExactly(b: Book, owner: Address, mint: Address, entry: real, liquidity: real)
    ensures Register(b, owner, mint, entry, liquidity)
         == (if exists i :: 0 <= i < |b.positions| && b.positions[i].mint == mint then Err(PositionExists)
             else Ok(b.(positions := b.positions + [Position(mint, owner, entry, liquidity, true, false)])))
    ensures Release(b, owner, mint).Ok? <==>
      exists i :: && 0 <= i < |b.positions| && b.positions[i].mint == mint && b.positions[i].owner == owner
                  && b.positions[i].locked && !b.positions[i].guarded
                  && forall k :: 0 <= k < i ==> b.positions[k].mint != mint
    ensures Release(b, owner, mint).Ok? ==>
      var i := PositionAt(b.positions, mint);
      Release(b, owner, mint).value == b.(positions := b.positions[i := b.positions[i].(locked := false)])
  {
    var i := PositionAt(b.positions, mint);
    if i < |b.positions| {
      assert b.positions[i].mint == mint;
    }
  }

  /**
   * A purchase writes one certificate: on the terms of the position and of the offered range, for the natural
   * cap rounded down, running for the tenor from now; the reserves take the premium less the protocol's
   * fee, rounded down.
   */
  lemma PurchaseMeans(cfg: PoolConfig, b: Book, buyer: Address, mint: Address, offer: Offer)
    requires Buy(cfg, b, buyer, mint, offer).Ok?
    ensures offer.template.Some? && PositionAt(b.positions, mint) < |b.positions|
    ensures var b', i, t := Buy(cfg, b, buyer, mint, offer).value, PositionAt(b.positions, mint), offer.template.value;
      && |b'.certificates| == |b.certificates| + 1
      && var p, c := b.positions[i], b'.certificates[|b.certificates|];
      && c == Certificate(mint, buyer, p.entry, t.lower, t.upper, c.cap, offer.premium, c.protocolFee, cfg.feeSplitRate,
                          offer.now + t.tenor, Active, 0, 0)
      && c.cap as real <= NaturalCap(p.entry, p.liquidity, t.lower, t.upper) * 1_000_000.0 < c.cap as real + 1.0
      && c.protocolFee * 10_000 <= offer.premium * cfg.protocolFeeBps < (c.protocolFee + 1) * 10_000
      && b' == b.(reserves := b.reserves + offer.premium - c.protocolFee, activeCap := b.activeCap + c.cap,
                  certificates := b.certificates + [c], positions := b.positions[i := p.(guarded := true)])
  {
    hide NaturalCap, QuoteHasHeadroom, AvailableHeadroom;
  }

  lemma TermsKept(cfg: PoolConfig, b: Book, r: Request, b': Book, j: nat)
    requires Takes(cfg, b, r, b') && j < |b.certificates|
    ensures j < |b'.certificates|
    ensures var c, c' := b.certificates[j], b'.certificates[j];
            c' == c.(status := c'.status, payout := c'.payout, feeIncome := c'.feeIncome)
  {
    hide CapUsdc, QuoteHasHeadroom, AvailableHeadroom, PayoutUsdc, FeeIncome;
  }

  lemma {:induction false} TermsKeptOverRuns(cfg: PoolConfig, books: seq<Book>, log: seq<Request>, i: nat, k: nat, j: nat)
    requires Linked(cfg, books, log) && i <= k <= |log| && j < |books[i].certificates|
    ensures j < |books[k].certificates|
    ensures var c, c' := books[i].certificates[j], books[k].certificates[j];
            c' == c.(status := c'.status, payout := c'.payout, feeIncome := c'.feeIncome)
    decreases k - i
  {
    hide Takes;
    if i < k {
      TermsKeptOverRuns(cfg, books, log, i, k - 1, j);
      TermsKept(cfg, books[k - 1], log[k - 1], books[k], j);
    }
  }

  /** Whenever a certificate is bought and later settled in a run, its tenor lies between the two. */
  lemma TenorLiesBetween(cfg: PoolConfig, books: seq<Book>, log: seq<Request>, i: nat, k: nat)
    requires Linked(cfg, books, log) && i < k < |log| && log[i].BuyRequest? && log[k].SettleRequest?
    requires CertificateAt(books[k].certificates, log[k].mint) == |books[i].certificates|
    ensures log[i].offer.template.Some? && log[i].offer.now + log[i].offer.template.value.tenor <= log[k].now
  {
    assert Takes(cfg, books[i], log[i], books[i + 1]);
    PurchaseMeans(cfg, books[i], log[i].buyer, log[i].mint, log[i].offer);
    TermsKeptOverRuns(cfg, books, log, i + 1, k, |books[i].certificates|);
    assert Takes(cfg, books[k], log[k], books[k + 1]);
    SettledWhenDue(books[k], log[k].mint, log[k].sT, log[k].fees, log[k].now);
  }

  lemma SettledWhenDue(b: Book, mint: Address, sT: real, fees: nat, now: int)
    requires Settle(b, mint, sT, fees, now).Ok?
    ensures CertificateAt(b.certificates, mint) < |b.certificates|
    ensures now >= b.certificates[CertificateAt(b.certificates, mint)].expiry
  {
  }
}
