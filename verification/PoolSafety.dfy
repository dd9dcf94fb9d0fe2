/** What every operation of the pool keeps, and what follows over whole runs. */
module PoolSafety {
  import opened FixedPoint
  import opened IntegerDivision
  import opened Outcomes
  import opened PositionValue
  import opened ProtectionPool
  import opened Sums

  // -------------------------------------------------------------------------
  // The invariant
  // -------------------------------------------------------------------------

  /** The shares of all holders together. */
  ghost function Held(shares: map<Address, int>): int {
    if shares == map[] then 0 else
      var owner :| owner in shares;
      Held(shares - {owner}) + shares[owner]
  }

  ghost predicate SharesAddUp(b: Book) {
    && Held(b.shares) == b.totalShares
    && forall owner :: owner in b.shares ==> b.shares[owner] > 0
  }

  ghost predicate CapsAddUp(b: Book) {
    b.activeCap == Sum(b.certificates, ActiveCapOf)
  }

  ghost predicate Covered(cfg: PoolConfig, b: Book) {
    && b.reserves >= 0
    && b.activeCap * BPS <= b.reserves * cfg.uMaxBps
  }

  /** Nobody's money: without shares the pool is empty. */
  ghost predicate NoOrphans(b: Book) {
    b.totalShares == 0 ==> b.reserves == 0
  }

  ghost predicate PositionsSound(b: Book) {
    && (forall i, k :: 0 <= i < k < |b.positions| ==> b.positions[i].mint != b.positions[k].mint)
    && forall i :: 0 <= i < |b.positions| ==> b.positions[i].entry >= 0.0 && b.positions[i].liquidity >= 0.0
  }

  /** A certificate is written on a registered position, at that position's entry price and natural cap. */
  ghost predicate Written(b: Book, c: Certificate) {
    var i := PositionAt(b.positions, c.mint);
    && i < |b.positions|
    && c.entry == b.positions[i].entry
    && 0.0 <= c.lower <= c.entry <= c.upper
    && c.cap == CapUsdc(c.entry, b.positions[i].liquidity, c.lower, c.upper)
    && c.cap > 0
    && c.feeSplitRate >= 0.0
    && ClosedProperly(c)
  }

  /** Nothing has moved on an active certificate; a closed one paid within its cap, and is settled if it paid at all. */
  ghost predicate ClosedProperly(c: Certificate) {
    match c.status
    case Active => c.payout == 0 && c.feeIncome == 0
    case Settled => c.payout != 0 && c.payout <= c.cap && c.feeIncome >= 0
    case Expired => c.payout == 0 && c.feeIncome >= 0
  }

  ghost predicate CertificatesSound(b: Book) {
    forall j :: 0 <= j < |b.certificates| ==> Written(b, b.certificates[j])
  }

  ghost predicate Guarded(b: Book, mint: Address) {
    var i := PositionAt(b.positions, mint);
    i < |b.positions| && b.positions[i].locked && b.positions[i].guarded
  }

  /** An active certificate keeps its position locked and marked, and is the only active one on it. */
  ghost predicate OneActivePerPosition(b: Book) {
    && (forall j :: 0 <= j < |b.certificates| && b.certificates[j].status.Active? ==> Guarded(b, b.certificates[j].mint))
    && forall j, k :: 0 <= j < k < |b.certificates| && b.certificates[j].status.Active? && b.certificates[k].status.Active? ==>
         b.certificates[j].mint != b.certificates[k].mint
  }

  ghost predicate Inv(cfg: PoolConfig, b: Book) {
    && SharesAddUp(b)
    && CapsAddUp(b)
    && Covered(cfg, b)
    && NoOrphans(b)
    && PositionsSound(b)
    && CertificatesSound(b)
    && OneActivePerPosition(b)
  }

  const EMPTY: Book := Book(0, 0, 0, map[], [], [])

  lemma EmptyHolds(cfg: PoolConfig)
    ensures Inv(cfg, EMPTY)
  {
  }

  // -------------------------------------------------------------------------
  // The share ledger
  // -------------------------------------------------------------------------

  lemma {:induction false} HeldWithout(shares: map<Address, int>, owner: Address)
    requires owner in shares
    ensures Held(shares) == Held(shares - {owner}) + shares[owner]
    decreases |shares|
  {
    var first :| first in shares && Held(shares) == Held(shares - {first}) + shares[first];
    if first != owner {
      HeldWithout(shares - {first}, owner);
      HeldWithout(shares - {owner}, first);
      assert shares - {first} - {owner} == shares - {owner} - {first};
    }
  }

  lemma HeldSet(shares: map<Address, int>, owner: Address, amount: int)
    ensures Held(shares[owner := amount]) == Held(shares) - SharesOf(shares, owner) + amount
  {
    var after := shares[owner := amount];
    HeldWithout(after, owner);
    if owner in shares {
      HeldWithout(shares, owner);
      assert after - {owner} == shares - {owner};
    } else {
      assert after - {owner} == shares;
    }
  }

  lemma {:induction false} HeldNonNegative(shares: map<Address, int>)
    requires forall owner :: owner in shares ==> shares[owner] > 0
    ensures Held(shares) >= 0
    ensures Held(shares) == 0 ==> shares == map[]
    decreases |shares|
  {
    if shares != map[] {
      var first :| first in shares && Held(shares) == Held(shares - {first}) + shares[first];
      HeldNonNegative(shares - {first});
    }
  }

  /** A holder's shares are part of the total, so whoever holds any divides by a positive number. */
  lemma OwnedAtMostTotal(b: Book, owner: Address)
    requires SharesAddUp(b)
    ensures 0 <= SharesOf(b.shares, owner) <= b.totalShares
  {
    if owner in b.shares {
      HeldWithout(b.shares, owner);
    }
    HeldNonNegative(b.shares - {owner});
    HeldNonNegative(b.shares);
  }

  // -------------------------------------------------------------------------
  // Integer facts
  // -------------------------------------------------------------------------

  /** floor(x * r / t) for 0 <= x <= t lies between 0 and r, and is r when x is t. */
  lemma Share(x: int, r: int, t: int)
    requires 0 <= x <= t && 0 < t && 0 <= r
    ensures 0 <= x * r / t <= r
    ensures x == t ==> x * r / t == r
    ensures x * r / t * t <= x * r
  {
    Times(x, t, r);
    var q := x * r / t;
    assert q * t <= x * r < (q + 1) * t;
    if q > r { Times(r + 1, q, t); assert false; }
    if q < 0 { Times(q + 1, 0, t); assert false; }
    if x == t && q < r { Times(q + 1, r, t); assert false; }
  }

  /** The rounded-up guard is exactly the inequality it stands for. */
  lemma MinReservesExact(cfg: PoolConfig, activeCap: int, post: int)
    requires cfg.uMaxBps > 0
    ensures post >= MinReserves(cfg, activeCap) <==> activeCap * BPS <= post * cfg.uMaxBps
  {
    var u, x := cfg.uMaxBps, activeCap * BPS;
    var q := -x / u;
    assert q * u <= -x < (q + 1) * u;
    assert MinReserves(cfg, activeCap) == -q;
    if post >= -q { Times(-q, post, u); }
    if post < -q { Times(post, -q - 1, u); }
  }

  /** So is the headroom, for a cap that is not zero. */
  lemma HeadroomExact(cfg: PoolConfig, b: Book, cap: int)
    requires cap > 0
    ensures cap <= AvailableHeadroom(cfg, b) <==> (b.activeCap + cap) * BPS <= b.reserves * cfg.uMaxBps
  {
  }

  lemma ActiveCapsDominate(b: Book, j: nat)
    requires j < |b.certificates| && b.certificates[j].status.Active?
    requires CapsAddUp(b) && CertificatesSound(b)
    ensures b.certificates[j].cap <= b.activeCap
  {
    SumDominates(b.certificates, j, ActiveCapOf);
  }

  lemma ActiveCapNonNegative(b: Book)
    requires CapsAddUp(b) && CertificatesSound(b)
    ensures b.activeCap >= 0
  {
    SumNonNegative(b.certificates, ActiveCapOf);
  }

  // -------------------------------------------------------------------------
  // Positions keep their places
  // -------------------------------------------------------------------------

  /** Later books hold the same positions, at the same places, with the same terms, and maybe more. */
  ghost predicate PositionsKept(before: seq<Position>, after: seq<Position>) {
    && |before| <= |after|
    && forall i :: 0 <= i < |before| ==>
         after[i] == before[i].(locked := after[i].locked, guarded := after[i].guarded)
  }

  lemma SamePlace(before: seq<Position>, after: seq<Position>, mint: Address)
    requires PositionsKept(before, after)
    ensures PositionAt(before, mint) < |before| ==> PositionAt(after, mint) == PositionAt(before, mint)
  {
  }

  lemma CertificatesStaySound(b: Book, b': Book)
    requires CertificatesSound(b) && PositionsKept(b.positions, b'.positions)
    requires |b'.certificates| == |b.certificates|
    requires forall j :: 0 <= j < |b.certificates| ==>
               var c, c' := b.certificates[j], b'.certificates[j];
               c' == c.(status := c'.status, payout := c'.payout, feeIncome := c'.feeIncome) && (c' == c || ClosedProperly(c'))
    ensures CertificatesSound(b')
  {
    forall j | 0 <= j < |b'.certificates| ensures Written(b', b'.certificates[j]) {
      assert Written(b, b.certificates[j]);
      SamePlace(b.positions, b'.positions, b.certificates[j].mint);
    }
  }

  // -------------------------------------------------------------------------
  // One operation at a time
  // -------------------------------------------------------------------------

  lemma DepositKeeps(cfg: PoolConfig, b: Book, owner: Address, amount: int)
    requires Inv(cfg, b) && Deposit(b, owner, amount).Ok?
    ensures Inv(cfg, Deposit(b, owner, amount).value)
  {
    var b' := Deposit(b, owner, amount).value;
    HeldSet(b.shares, owner, SharesOf(b.shares, owner) + SharesFor(b, amount));
    OwnedAtMostTotal(b, owner);
    Times(b.reserves, b'.reserves, cfg.uMaxBps);
    CertificatesStaySound(b, b');
    assert OneActivePerPosition(b');
  }

  /** A withdrawal that gets past the guard divides by a positive number and cannot overdraw. */
  lemma WithdrawBounded(cfg: PoolConfig, b: Book, owner: Address, burned: int)
    requires Inv(cfg, b) && 0 < burned <= SharesOf(b.shares, owner)
    ensures 0 < burned <= b.totalShares
    ensures 0 <= UsdcFor(b, burned) <= b.reserves
    ensures burned == b.totalShares ==> UsdcFor(b, burned) == b.reserves
  {
    OwnedAtMostTotal(b, owner);
    Share(burned, b.reserves, b.totalShares);
  }

  ghost predicate Defined(cfg: PoolConfig, b: Book, owner: Address) {
    && (b.totalShares == 0 ==> SharesOf(b.shares, owner) <= 0)
    && (b.activeCap > 0 ==> cfg.uMaxBps > 0)
  }

  /** In a sound book no withdrawal divides by zero. */
  lemma WithdrawDefined(cfg: PoolConfig, b: Book, owner: Address)
    requires Inv(cfg, b)
    ensures Defined(cfg, b, owner)
  {
    OwnedAtMostTotal(b, owner);
  }

  lemma SharesRemoved(b: Book, b': Book, owner: Address, burned: int)
    requires SharesAddUp(b) && 0 < burned <= SharesOf(b.shares, owner)
    requires b'.shares == RemoveShares(b.shares, owner, burned) && b'.totalShares == b.totalShares - burned
    ensures SharesAddUp(b')
  {
    HeldWithout(b.shares, owner);
    HeldSet(b.shares, owner, SharesOf(b.shares, owner) - burned);
  }

  lemma WithdrawKeeps(cfg: PoolConfig, b: Book, owner: Address, burned: int)
    requires Inv(cfg, b) && Defined(cfg, b, owner) && Withdraw(cfg, b, owner, burned).Ok?
    ensures Inv(cfg, Withdraw(cfg, b, owner, burned).value)
  {
    var b' := Withdraw(cfg, b, owner, burned).value;
    WithdrawBounded(cfg, b, owner, burned);
    SharesRemoved(b, b', owner, burned);
    ActiveCapNonNegative(b);
    assert Covered(cfg, b') by {
      if b.activeCap > 0 {
        MinReservesExact(cfg, b.activeCap, b'.reserves);
      } else {
        Times(0, b'.reserves, cfg.uMaxBps);
      }
    }
    CertificatesStaySound(b, b');
    assert OneActivePerPosition(b');
  }

  lemma RegisterKeeps(cfg: PoolConfig, b: Book, owner: Address, mint: Address, entry: real, liquidity: real)
    requires Inv(cfg, b) && Register(b, owner, mint, entry, liquidity).Ok? && entry >= 0.0 && liquidity >= 0.0
    ensures Inv(cfg, Register(b, owner, mint, entry, liquidity).value)
  {
    var b' := Register(b, owner, mint, entry, liquidity).value;
    CertificatesStaySound(b, b');
    forall j | 0 <= j < |b.certificates| && b.certificates[j].status.Active?
      ensures Guarded(b', b.certificates[j].mint)
    {
      assert Guarded(b, b.certificates[j].mint);
      SamePlace(b.positions, b'.positions, b.certificates[j].mint);
    }
  }

  lemma ReleaseKeeps(cfg: PoolConfig, b: Book, owner: Address, mint: Address)
    requires Inv(cfg, b) && Release(b, owner, mint).Ok?
    ensures Inv(cfg, Release(b, owner, mint).value)
  {
    var b' := Release(b, owner, mint).value;
    CertificatesStaySound(b, b');
    forall j | 0 <= j < |b.certificates| && b.certificates[j].status.Active?
      ensures Guarded(b', b.certificates[j].mint)
    {
      assert Guarded(b, b.certificates[j].mint);
      SamePlace(b.positions, b'.positions, b.certificates[j].mint);
    }
  }

  lemma CapFitsReserves(cfg: PoolConfig, b: Book, cap: int)
    requires cfg.Sane() && Covered(cfg, b) && 0 < cap && (b.activeCap + cap) * BPS <= b.reserves * cfg.uMaxBps
    requires b.activeCap >= 0
    ensures b.reserves > 0
  {
  }

  /** Once the headroom test has passed, the utilisation test inside the quote cannot fail. */
  lemma SecondTestRedundant(cfg: PoolConfig, b: Book, cap: int)
    requires cfg.Sane() && Inv(cfg, b) && 0 < cap <= AvailableHeadroom(cfg, b)
    ensures QuoteHasHeadroom(cfg, b, cap)
  {
    HeadroomExact(cfg, b, cap);
    ActiveCapNonNegative(b);
    CapFitsReserves(cfg, b, cap);
    var x, r, m := (b.activeCap + cap) * PPM, b.reserves, cfg.uMaxBps * 100;
    assert x <= r * m;
    var q := x / r;
    if q > m { Times(m + 1, q, r); assert false; }
  }

  lemma FeeWithinPremium(cfg: PoolConfig, premium: nat)
    requires cfg.Sane()
    ensures 0 <= ProtocolFee(cfg, premium) <= premium
  {
    Times(cfg.protocolFeeBps, BPS, premium);
    Times(0, premium, cfg.protocolFeeBps);
  }

  lemma BuyKeeps(cfg: PoolConfig, b: Book, buyer: Address, mint: Address, offer: Offer)
    requires cfg.Sane() && Inv(cfg, b) && BuyRequest(buyer, mint, offer).Proper(b) && Buy(cfg, b, buyer, mint, offer).Ok?
    ensures Inv(cfg, Buy(cfg, b, buyer, mint, offer).value)
  {
    var b' := Buy(cfg, b, buyer, mint, offer).value;
    var n := |b.certificates|;
    var c := b'.certificates[n];
    var i := PositionAt(b.positions, mint);
    HeadroomExact(cfg, b, c.cap);
    ActiveCapNonNegative(b);
    CapFitsReserves(cfg, b, c.cap);
    FeeWithinPremium(cfg, offer.premium);
    Times(b.reserves, b'.reserves, cfg.uMaxBps);
    SumAppend(b.certificates, c, ActiveCapOf);
    BuyKeepsCertificates(b, b', c, i);
  }

  lemma BuyKeepsCertificates(b: Book, b': Book, c: Certificate, i: nat)
    requires PositionsSound(b) && CertificatesSound(b) && OneActivePerPosition(b)
    requires i == PositionAt(b.positions, c.mint) < |b.positions|
    requires b.positions[i].locked && !b.positions[i].guarded
    requires b'.certificates == b.certificates + [c] && b'.positions == b.positions[i := b.positions[i].(guarded := true)]
    requires Written(b, c) && c.status.Active?
    ensures PositionsSound(b') && CertificatesSound(b') && OneActivePerPosition(b')
  {
    SamePlace(b.positions, b'.positions, c.mint);
    CertificatesStaySound(b, b'.(certificates := b.certificates));
    forall j | 0 <= j < |b'.certificates|
      ensures Written(b', b'.certificates[j])
      ensures b'.certificates[j].status.Active? ==> Guarded(b', b'.certificates[j].mint)
      ensures j < |b.certificates| && b'.certificates[j].status.Active? ==> b'.certificates[j].mint != c.mint
    {
      if j < |b.certificates| {
        assert Written(b'.(certificates := b.certificates), b.certificates[j]);
        assert b.certificates[j].status.Active? ==> Guarded(b, b.certificates[j].mint);
        SamePlace(b.positions, b'.positions, b.certificates[j].mint);
      }
    }
  }

  /** A settlement's signed payout, in whole micro-USDC, is at most the cap reserved for it. */
  lemma PayoutWithinCap(b: Book, c: Certificate, sT: real)
    requires PositionsSound(b) && Written(b, c) && sT >= 0.0
    ensures PayoutUsdc(c, b.positions[PositionAt(b.positions, c.mint)].liquidity, sT) <= c.cap
  {
    hide LhPayoff, NaturalCap;
    var liquidity := b.positions[PositionAt(b.positions, c.mint)].liquidity;
    PayoffBetweenCaps(sT, c.entry, liquidity, c.lower, c.upper);
    var x, y := LhPayoff(sT, c.entry, liquidity, c.lower, c.upper), NaturalCap(c.entry, liquidity, c.lower, c.upper);
    assert x * E6 <= y * E6;
  }

  lemma SettleKeeps(cfg: PoolConfig, b: Book, mint: Address, sT: real, fees: nat, now: int)
    requires cfg.Sane() && Inv(cfg, b) && sT >= 0.0 && Settle(b, mint, sT, fees, now).Ok?
    ensures Inv(cfg, Settle(b, mint, sT, fees, now).value)
  {
    hide PayoutUsdc, CapUsdc, FeeIncome;
    var b' := Settle(b, mint, sT, fees, now).value;
    var j, i := CertificateAt(b.certificates, mint), PositionAt(b.positions, mint);
    var c := b.certificates[j];
    assert Written(b, c);
    var payout, income := PayoutUsdc(c, b.positions[i].liquidity, sT), FeeIncome(c, fees);
    PayoutWithinCap(b, c, sT);
    IncomeNonNegative(c, fees);
    SettleKeepsCaps(b, b', j, payout, income);
    SettleKeepsCover(cfg, b.reserves, b.activeCap, c.cap, payout, income);
    SettleKeepsCertificates(b, b', j, i, payout, income);
  }

  lemma IncomeNonNegative(c: Certificate, fees: nat)
    requires c.feeSplitRate >= 0.0
    ensures FeeIncome(c, fees) >= 0
  {
    assert c.feeSplitRate * fees as real >= 0.0;
  }

  lemma SettleKeepsCaps(b: Book, b': Book, j: nat, payout: int, income: int)
    requires CapsAddUp(b) && CertificatesSound(b)
    requires j < |b.certificates| && b.certificates[j].status.Active?
    requires b'.certificates == b.certificates[j := Closed(b.certificates[j], payout, income)]
    requires b'.activeCap == b.activeCap - b.certificates[j].cap
    ensures CapsAddUp(b') && 0 < b.certificates[j].cap <= b.activeCap
  {
    assert Written(b, b.certificates[j]);
    SumUpdate(b.certificates, j, Closed(b.certificates[j], payout, income), ActiveCapOf);
    ActiveCapsDominate(b, j);
  }

  lemma SettleKeepsCover(cfg: PoolConfig, reserves: int, activeCap: int, cap: int, payout: int, income: int)
    requires cfg.Sane() && 0 < cap <= activeCap && payout <= cap && income >= 0
    requires reserves >= 0 && activeCap * BPS <= reserves * cfg.uMaxBps
    ensures reserves > 0 && reserves - payout + income >= 0
    ensures (activeCap - cap) * BPS <= (reserves - payout + income) * cfg.uMaxBps
  {
    var u := cfg.uMaxBps;
    Times(cfg.uMaxBps, BPS, cap);
    Times(reserves - cap, reserves - payout + income, u);
    assert (reserves - cap) * u == reserves * u - cap * u;
    if reserves < cap {
      Times(reserves, cap - 1, u);
      assert (cap - 1) * u <= (cap - 1) * BPS by { Times(u, BPS, cap - 1); }
      assert false;
    }
  }

  lemma SettleKeepsCertificates(b: Book, b': Book, j: nat, i: nat, payout: int, income: int)
    requires PositionsSound(b) && CertificatesSound(b) && OneActivePerPosition(b)
    requires j < |b.certificates| && b.certificates[j].status.Active?
    requires i == PositionAt(b.positions, b.certificates[j].mint) < |b.positions|
    requires b'.certificates == b.certificates[j := Closed(b.certificates[j], payout, income)]
    requires b'.positions == b.positions[i := b.positions[i].(guarded := false)]
    requires payout <= b.certificates[j].cap && income >= 0
    ensures PositionsSound(b') && CertificatesSound(b') && OneActivePerPosition(b')
  {
    CertificatesStaySound(b, b');
    forall k | 0 <= k < |b'.certificates| && b'.certificates[k].status.Active?
      ensures Guarded(b', b'.certificates[k].mint)
    {
      assert k != j && Guarded(b, b.certificates[k].mint);
      assert b.certificates[k].mint != b.certificates[j].mint;
      SamePlace(b.positions, b'.positions, b.certificates[k].mint);
    }
  }
}
