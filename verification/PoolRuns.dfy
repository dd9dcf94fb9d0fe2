/** The pool over whole runs of accepted requests. */
module PoolRuns {
  import opened IntegerDivision
  import opened Outcomes
  import opened ProtectionPool
  import opened PoolSafety
  import opened Sums

  /** The pool accepts the request in b and moves to b'. */
  ghost predicate Takes(cfg: PoolConfig, b: Book, r: Request, b': Book) {
    && r.Proper(b)
    && match r
       case DepositRequest(owner, amount) => Deposit(b, owner, amount) == Ok(b')
       case WithdrawRequest(owner, burned) => Defined(cfg, b, owner) && Withdraw(cfg, b, owner, burned) == Ok(b')
       case RegisterRequest(owner, mint, entry, liquidity) => Register(b, owner, mint, entry, liquidity) == Ok(b')
       case ReleaseRequest(owner, mint) => Release(b, owner, mint) == Ok(b')
       case BuyRequest(buyer, mint, offer) => Buy(cfg, b, buyer, mint, offer) == Ok(b')
       case SettleRequest(mint, sT, fees, now) => Settle(b, mint, sT, fees, now) == Ok(b')
  }

  /** Consecutive books, each reached from the one before by a request the pool accepted. */
  ghost predicate Linked(cfg: PoolConfig, books: seq<Book>, log: seq<Request>) {
    && |books| == |log| + 1
    && forall k :: 0 <= k < |log| ==> Takes(cfg, books[k], log[k], books[k + 1])
  }

  ghost predicate IsRun(cfg: PoolConfig, books: seq<Book>, log: seq<Request>) {
    Linked(cfg, books, log) && books[0] == EMPTY
  }

  lemma LinkedPrefix(cfg: PoolConfig, books: seq<Book>, log: seq<Request>)
    requires Linked(cfg, books, log) && log != []
    ensures Linked(cfg, books[..|log|], log[..|log| - 1])
    ensures Takes(cfg, books[|log| - 1], log[|log| - 1], books[|log|])
  {
    hide Takes;
    var books', log' := books[..|log|], log[..|log| - 1];
    forall k | 0 <= k < |log'| ensures Takes(cfg, books'[k], log'[k], books'[k + 1]) {
      assert Takes(cfg, books[k], log[k], books[k + 1]);
    }
  }

  lemma TakesKeeps(cfg: PoolConfig, b: Book, r: Request, b': Book)
    requires cfg.Sane() && Inv(cfg, b) && Takes(cfg, b, r, b')
    ensures Inv(cfg, b')
  {
    hide Inv, Deposit, Withdraw, Register, Release, Buy, Settle;
    match r
    case DepositRequest(owner, amount) => DepositKeeps(cfg, b, owner, amount);
    case WithdrawRequest(owner, burned) => WithdrawKeeps(cfg, b, owner, burned);
    case RegisterRequest(owner, mint, entry, liquidity) => RegisterKeeps(cfg, b, owner, mint, entry, liquidity);
    case ReleaseRequest(owner, mint) => ReleaseKeeps(cfg, b, owner, mint);
    case BuyRequest(buyer, mint, offer) => BuyKeeps(cfg, b, buyer, mint, offer);
    case SettleRequest(mint, sT, fees, now) => SettleKeeps(cfg, b, mint, sT, fees, now);
  }

  /**
   * In every book of every run the share ledger sums to the share count, the active cap is the sum of
   * the caps of the active certificates, reserves cover it at the utilisation limit, and the rest of
   * the invariant holds.
   */
  lemma {:induction false} InvariantOfRun(cfg: PoolConfig, books: seq<Book>, log: seq<Request>, k: nat)
    requires cfg.Sane() && IsRun(cfg, books, log) && k < |books|
    ensures Inv(cfg, books[k])
  {
    hide Inv, Takes;
    if k == 0 {
      EmptyHolds(cfg);
    } else {
      InvariantOfRun(cfg, books, log, k - 1);
      TakesKeeps(cfg, books[k - 1], log[k - 1], books[k]);
    }
  }

  // -------------------------------------------------------------------------
  // Exactly when a request is accepted
  // -------------------------------------------------------------------------

  /** A withdrawal is accepted exactly when the shares are owned and what is left still covers the active caps. */
  lemma WithdrawExactly(cfg: PoolConfig, b: Book, owner: Address, burned: int)
    requires Inv(cfg, b) && Defined(cfg, b, owner)
    ensures Withdraw(cfg, b, owner, burned).Ok? <==>
              && 0 < burned <= SharesOf(b.shares, owner)
              && b.activeCap * BPS <= (b.reserves - burned * b.reserves / b.totalShares) * cfg.uMaxBps
  {
    if 0 < burned <= SharesOf(b.shares, owner) {
      WithdrawBounded(cfg, b, owner, burned);
      ActiveCapNonNegative(b);
      var post := b.reserves - UsdcFor(b, burned);
      Times(0, post, cfg.uMaxBps);
      if b.activeCap > 0 {
        MinReservesExact(cfg, b.activeCap, post);
      }
    }
  }

  /** A purchase on a free, locked position is accepted exactly when the reserves can carry the new cap. */
  lemma BuyExactly(cfg: PoolConfig, b: Book, buyer: Address, mint: Address, offer: Offer)
    requires cfg.Sane() && Inv(cfg, b)
    requires PositionAt(b.positions, mint) < |b.positions| && offer.template.Some? && offer.regime.Fresh?
    ensures Buy(cfg, b, buyer, mint, offer) != Err(QuoteFailed)
    ensures Buy(cfg, b, buyer, mint, offer).Ok? <==>
              var p, t := b.positions[PositionAt(b.positions, mint)], offer.template.value;
              var cap := CapUsdc(p.entry, p.liquidity, t.lower, t.upper);
              p.locked && !p.guarded && 0 < cap && (b.activeCap + cap) * BPS <= b.reserves * cfg.uMaxBps
  {
    hide CapUsdc, QuoteHasHeadroom, AvailableHeadroom;
    var p, t := b.positions[PositionAt(b.positions, mint)], offer.template.value;
    var cap := CapUsdc(p.entry, p.liquidity, t.lower, t.upper);
    if 0 < cap {
      HeadroomExact(cfg, b, cap);
      if cap <= AvailableHeadroom(cfg, b) {
        SecondTestRedundant(cfg, b, cap);
      }
    }
  }

  /** An active certificate that is due settles exactly when it is the first ever written on its position. */
  lemma SettlesExactlyIfFirst(cfg: PoolConfig, b: Book, j: nat, sT: real, fees: nat, now: int)
    requires Inv(cfg, b) && j < |b.certificates|
    requires b.certificates[j].status.Active? && now >= b.certificates[j].expiry
    ensures Settle(b, b.certificates[j].mint, sT, fees, now).Ok? <==>
              forall i :: 0 <= i < j ==> b.certificates[i].mint != b.certificates[j].mint
  {
    hide PayoutUsdc;
    var first := CertificateAt(b.certificates, b.certificates[j].mint);
    assert Written(b, b.certificates[j]);
    assert first <= j;
  }

  // -------------------------------------------------------------------------
  // Share price
  // -------------------------------------------------------------------------

  /** Reserves per share are at least as high in after as in before. */
  ghost predicate NoCheaper(before: Book, after: Book) {
    after.reserves * before.totalShares >= before.reserves * after.totalShares
  }

  lemma DepositNoCheaper(cfg: PoolConfig, b: Book, owner: Address, amount: int)
    requires Inv(cfg, b) && Deposit(b, owner, amount).Ok?
    ensures NoCheaper(b, Deposit(b, owner, amount).value)
    ensures SharesFor(b, amount) * b.reserves <= amount * b.totalShares
  {
    OwnedAtMostTotal(b, owner);
    var n, t, r := SharesFor(b, amount), b.totalShares, b.reserves;
    if t != 0 && r != 0 {
      Floor(amount * t, r);
    } else {
      Times(0, amount, t);
    }
    Added(r, t, amount, n);
  }

  lemma Added(r: int, t: int, a: int, n: int)
    requires n * r <= a * t
    ensures (r + a) * t >= r * (t + n)
  {
  }

  lemma WithdrawNoCheaper(cfg: PoolConfig, b: Book, owner: Address, burned: int)
    requires Inv(cfg, b) && Defined(cfg, b, owner) && Withdraw(cfg, b, owner, burned).Ok?
    ensures NoCheaper(b, Withdraw(cfg, b, owner, burned).value)
  {
    WithdrawBounded(cfg, b, owner, burned);
    var t, r := b.totalShares, b.reserves;
    var w := burned * r / t;
    Floor(burned * r, t);
    assert (r - w) * t == r * t - w * t;
    assert r * (t - burned) == r * t - burned * r;
  }

  /** No operation but a settlement lowers reserves per share. */
  lemma PriceNeverFalls(cfg: PoolConfig, b: Book, r: Request, b': Book)
    requires cfg.Sane() && Inv(cfg, b) && Takes(cfg, b, r, b') && !r.SettleRequest?
    ensures NoCheaper(b, b')
  {
    hide CapUsdc, QuoteHasHeadroom, AvailableHeadroom;
    match r
    case DepositRequest(owner, amount) => DepositNoCheaper(cfg, b, owner, amount);
    case WithdrawRequest(owner, burned) => WithdrawNoCheaper(cfg, b, owner, burned);
    case BuyRequest(_, _, offer) =>
      FeeWithinPremium(cfg, offer.premium);
      OwnedAtMostTotal(b, Address(""));
      Times(b.reserves, b'.reserves, b.totalShares);
    case _ =>
  }

  lemma Chain(r0: int, t0: int, r1: int, t1: int, r2: int, t2: int)
    requires 0 < t1 && 0 <= t0 && 0 <= t2
    requires r1 * t0 >= r0 * t1 && r2 * t1 >= r1 * t2
    ensures r2 * t0 >= r0 * t2
  {
    var x, y := r2 * t0, r0 * t2;
    Times(r1 * t2, r2 * t1, t0);
    Times(r0 * t1, r1 * t0, t2);
    assert x * t1 == r2 * t1 * t0 && y * t1 == r0 * t1 * t2 && r1 * t2 * t0 == r1 * t0 * t2;
    assert x * t1 >= y * t1;
    if x < y {
      Times(x + 1, y, t1);
      assert false;
    }
  }

  ghost predicate ActsFor(r: Request, owner: Address) {
    || (r.DepositRequest? && r.owner == owner)
    || (r.WithdrawRequest? && r.owner == owner)
  }

  /** What burning the given shares would return. */
  ghost function Worth(b: Book, shares: int): int {
    if b.totalShares == 0 then 0 else shares * b.reserves / b.totalShares
  }

  lemma OthersLeaveShares(cfg: PoolConfig, b: Book, r: Request, b': Book, owner: Address)
    requires Takes(cfg, b, r, b') && !ActsFor(r, owner)
    ensures SharesOf(b'.shares, owner) == SharesOf(b.shares, owner)
  {
    hide CapUsdc, QuoteHasHeadroom, AvailableHeadroom, PayoutUsdc, FeeIncome;
  }

  /**
   * Whatever others deposit, withdraw or buy, in any order and however often, a holder who does
   * nothing keeps its shares, and what they would return never falls.
   */
  lemma {:induction false} OthersCannotDilute(cfg: PoolConfig, books: seq<Book>, log: seq<Request>, owner: Address)
    requires cfg.Sane() && Linked(cfg, books, log) && Inv(cfg, books[0])
    requires forall k :: 0 <= k < |log| ==> !ActsFor(log[k], owner) && !log[k].SettleRequest?
    requires SharesOf(books[0].shares, owner) > 0
    ensures Inv(cfg, books[|log|]) && SharesOf(books[|log|].shares, owner) == SharesOf(books[0].shares, owner)
    ensures NoCheaper(books[0], books[|log|])
    ensures Worth(books[|log|], SharesOf(books[0].shares, owner)) >= Worth(books[0], SharesOf(books[0].shares, owner))
    decreases |log|
  {
    hide Inv, Takes;
    var n := |log|;
    if n > 0 {
      var books', log' := books[..n], log[..n - 1];
      LinkedPrefix(cfg, books, log);
      OthersCannotDilute(cfg, books', log', owner);
      var b0, b1, b2 := books[0], books[n - 1], books[n];
      TakesKeeps(cfg, b1, log[n - 1], b2);
      OthersLeaveShares(cfg, b1, log[n - 1], b2, owner);
      PriceNeverFalls(cfg, b1, log[n - 1], b2);
      OwnsPart(cfg, b0, owner);
      OwnsPart(cfg, b1, owner);
      OwnsPart(cfg, b2, owner);
      Chain(b0.reserves, b0.totalShares, b1.reserves, b1.totalShares, b2.reserves, b2.totalShares);
      WorthNoLess(b0, b2, SharesOf(b0.shares, owner));
    }
  }

  lemma OwnsPart(cfg: PoolConfig, b: Book, owner: Address)
    requires Inv(cfg, b) && SharesOf(b.shares, owner) > 0
    ensures b.totalShares > 0
  {
    OwnedAtMostTotal(b, owner);
  }

  lemma WorthNoLess(b: Book, b': Book, shares: int)
    requires NoCheaper(b, b') && b.totalShares > 0 && b'.totalShares > 0 && shares > 0
    ensures Worth(b', shares) >= Worth(b, shares)
  {
    var r, t, r', t' := b.reserves, b.totalShares, b'.reserves, b'.totalShares;
    var w := Worth(b, shares);
    Floor(shares * r, t);
    Times(w * t, shares * r, t');
    Times(r * t', r' * t, shares);
    assert w * t * t' <= shares * r' * t by {
      assert shares * r * t' == r * t' * shares && r' * t * shares == shares * r' * t;
    }
    assert w * t' * t == w * t * t';
    Cancel(w * t', shares * r', t);
    AtMostFloor(w, shares * r', t');
  }

  /** So the quoted share price never falls while there are shares on both sides. */
  lemma SharePriceNoLess(b: Book, b': Book)
    requires NoCheaper(b, b') && b.totalShares > 0 && b'.totalShares > 0
    ensures SharePrice(b'.reserves, b'.totalShares) >= SharePrice(b.reserves, b.totalShares)
  {
    WorthNoLess(b, b', 1_000_000);
  }

  /** A deposit whose shares are burned again at once never returns more than was put in. */
  lemma RoundTripLoses(cfg: PoolConfig, b: Book, owner: Address, amount: int)
    requires Inv(cfg, b) && Deposit(b, owner, amount).Ok?
    ensures var b' := Deposit(b, owner, amount).value;
            && b'.totalShares > 0
            && UsdcFor(b', SharesFor(b, amount)) <= amount
  {
    DepositNoCheaper(cfg, b, owner, amount);
    OwnedAtMostTotal(b, owner);
    var n, t, r := SharesFor(b, amount), b.totalShares, b.reserves;
    var w := n * (r + amount) / (t + n);
    Floor(n * (r + amount), t + n);
    Returned(r, t, amount, n);
    Cancel(w, amount, t + n);
  }

  lemma Returned(r: int, t: int, a: int, n: int)
    requires n * r <= a * t
    ensures n * (r + a) <= a * (t + n)
  {
  }

  // -------------------------------------------------------------------------
  // Conservation
  // -------------------------------------------------------------------------

  /** What one certificate brought the pool so far: its premium less the protocol's cut and its payout, plus its fee share. */
  function EarnedBy(c: Certificate): int { c.premium - c.protocolFee - c.payout + c.feeIncome }

  /** What a request moves between a risk taker and the pool. */
  ghost function Contribution(b: Book, r: Request): int {
    match r
    case DepositRequest(_, amount) => amount
    case WithdrawRequest(_, burned) => -Worth(b, burned)
    case _ => 0
  }

  ghost function Contributed(books: seq<Book>, log: seq<Request>): int
    requires |books| == |log| + 1
  {
    if log == [] then 0
    else
      var n := |log| - 1;
      Contributed(books[..n + 1], log[..n]) + Contribution(books[n], log[n])
  }

  lemma StepConserves(cfg: PoolConfig, b: Book, r: Request, b': Book)
    requires Inv(cfg, b) && Takes(cfg, b, r, b')
    ensures b'.reserves - Sum(b'.certificates, EarnedBy)
         == b.reserves - Sum(b.certificates, EarnedBy) + Contribution(b, r)
  {
    hide CapUsdc, QuoteHasHeadroom, AvailableHeadroom, PayoutUsdc, FeeIncome, Sum, Inv;
    match r
    case WithdrawRequest(owner, burned) => Owned(cfg, b, owner);
    case BuyRequest(_, _, _) => SumAppend(b.certificates, b'.certificates[|b.certificates|], EarnedBy);
    case SettleRequest(mint, sT, fees, now) => SettleConserves(cfg, b, mint, sT, fees, now);
    case _ =>
  }

  lemma Owned(cfg: PoolConfig, b: Book, owner: Address)
    requires Inv(cfg, b)
    ensures SharesOf(b.shares, owner) <= b.totalShares
  {
    OwnedAtMostTotal(b, owner);
  }

  lemma SettleConserves(cfg: PoolConfig, b: Book, mint: Address, sT: real, fees: nat, now: int)
    requires Inv(cfg, b) && Settle(b, mint, sT, fees, now).Ok?
    ensures var b' := Settle(b, mint, sT, fees, now).value;
            b'.reserves - Sum(b'.certificates, EarnedBy) == b.reserves - Sum(b.certificates, EarnedBy)
  {
    hide CapUsdc, PayoutUsdc, FeeIncome, Sum;
    var b' := Settle(b, mint, sT, fees, now).value;
    var j := CertificateAt(b.certificates, mint);
    assert Written(b, b.certificates[j]);
    SumUpdate(b.certificates, j, b'.certificates[j], EarnedBy);
  }

  /**
   * Over every run the reserves are what risk takers put in and took out, plus what the certificates
   * brought: premiums after the protocol's cut, fee shares, less payouts.
   */
  lemma {:induction false} MoneyIsConserved(cfg: PoolConfig, books: seq<Book>, log: seq<Request>)
    requires cfg.Sane() && IsRun(cfg, books, log)
    ensures books[|log|].reserves == Contributed(books, log) + Sum(books[|log|].certificates, EarnedBy)
    decreases |log|
  {
    hide Takes, Inv, Contribution;
    var n := |log|;
    if n > 0 {
      LinkedPrefix(cfg, books, log);
      MoneyIsConserved(cfg, books[..n], log[..n - 1]);
      InvariantOfRun(cfg, books, log, n - 1);
      StepConserves(cfg, books[n - 1], log[n - 1], books[n]);
    }
  }

  // -------------------------------------------------------------------------
  // The renewed certificate
  // -------------------------------------------------------------------------

  /** Certificate j has an earlier one on the same position. */
  ghost predicate Renewed(b: Book, j: nat) {
    j < |b.certificates| && exists i :: 0 <= i < j && b.certificates[i].mint == b.certificates[j].mint
  }

  lemma RenewedUntouched(cfg: PoolConfig, b: Book, r: Request, b': Book, j: nat)
    requires Takes(cfg, b, r, b') && Renewed(b, j)
    ensures Renewed(b', j) && b'.certificates[j] == b.certificates[j]
  {
    hide CapUsdc, QuoteHasHeadroom, AvailableHeadroom, PayoutUsdc, FeeIncome;
    var i :| 0 <= i < j && b.certificates[i].mint == b.certificates[j].mint;
    assert b'.certificates[i].mint == b'.certificates[j].mint;
  }

  /** A purchase on a position that had a certificate before is accepted like any other, and is a renewal. */
  lemma BoughtAgainIsRenewed(cfg: PoolConfig, b: Book, buyer: Address, mint: Address, offer: Offer)
    requires Inv(cfg, b) && Buy(cfg, b, buyer, mint, offer).Ok?
    requires CertificateAt(b.certificates, mint) < |b.certificates|
    ensures var b' := Buy(cfg, b, buyer, mint, offer).value;
            Renewed(b', |b.certificates|) && b'.certificates[|b.certificates|].status.Active?
  {
    hide CapUsdc, QuoteHasHeadroom, AvailableHeadroom;
    var b' := Buy(cfg, b, buyer, mint, offer).value;
    var i := CertificateAt(b.certificates, mint);
    assert b'.certificates[i].mint == b'.certificates[|b.certificates|].mint;
  }

  /**
   * Settlement looks only at the first certificate on a position. A second, renewed one is bought
   * but never settled: through every later run it stays active, its cap stays reserved, and
   * settling its position is refused.
   */
  lemma {:induction false} RenewedIsStuck(cfg: PoolConfig, books: seq<Book>, log: seq<Request>, j: nat)
    requires cfg.Sane() && Linked(cfg, books, log) && Inv(cfg, books[0])
    requires Renewed(books[0], j) && books[0].certificates[j].status.Active?
    ensures Inv(cfg, books[|log|]) && Renewed(books[|log|], j)
    ensures books[|log|].certificates[j] == books[0].certificates[j]
    ensures books[|log|].activeCap >= books[0].certificates[j].cap > 0
    ensures forall sT, fees, now :: Settle(books[|log|], books[0].certificates[j].mint, sT, fees, now).Err?
    decreases |log|
  {
    hide Takes;
    var n := |log|;
    if n > 0 {
      var books', log' := books[..n], log[..n - 1];
      LinkedPrefix(cfg, books, log);
      RenewedIsStuck(cfg, books', log', j);
      TakesKeeps(cfg, books[n - 1], log[n - 1], books[n]);
      RenewedUntouched(cfg, books[n - 1], log[n - 1], books[n], j);
    }
    ActiveCapsDominate(books[n], j);
    assert Written(books[n], books[n].certificates[j]);
    forall sT, fees, now
      ensures Settle(books[n], books[0].certificates[j].mint, sT, fees, now).Err?
    {
      RenewedRefused(cfg, books[n], j, sT, fees, now);
    }
  }

  lemma RenewedRefused(cfg: PoolConfig, b: Book, j: nat, sT: real, fees: nat, now: int)
    requires Inv(cfg, b) && Renewed(b, j) && b.certificates[j].status.Active?
    ensures Settle(b, b.certificates[j].mint, sT, fees, now) == Err(NotActive)
  {
    hide PayoutUsdc;
    var first := CertificateAt(b.certificates, b.certificates[j].mint);
    var i :| 0 <= i < j && b.certificates[i].mint == b.certificates[j].mint;
    assert first <= i;
  }
}
