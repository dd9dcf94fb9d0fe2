/** The in-memory state store and the operations that change it in place. */
module PoolStore {
  import opened Outcomes
  import opened ProtectionPool
  import opened PoolSafety
  import opened PoolRuns

  datatype PoolState = PoolState(reserves: int, totalShares: int, activeCap: int)

  class StateStore {
    const cfg: PoolConfig
    var pool: Option<PoolState>
    var shareLedger: map<Address, int>
    var positions: seq<Position>
    var certificates: seq<Certificate>

    ghost function Contents(): Book
      reads this
    {
      var p := if pool.Some? then pool.value else PoolState(0, 0, 0);
      Book(p.reserves, p.totalShares, p.activeCap, shareLedger, positions, certificates)
    }

    /** Every reachable store satisfies the invariant of the books. */
    ghost predicate Valid()
      reads this
    {
      cfg.Sane() && Inv(cfg, Contents())
    }

    constructor (cfg: PoolConfig)
      requires cfg.Sane()
      ensures Valid() && this.cfg == cfg && pool.None? && Contents() == EMPTY
    {
      this.cfg := cfg;
      pool, shareLedger, positions, certificates := None, map[], [], [];
    }

    /** Only this holder's shares change, by the amount. */
    method AddShares(owner: Address, amount: int)
      modifies this`shareLedger
      ensures SharesOf(shareLedger, owner) == SharesOf(old(shareLedger), owner) + amount
      ensures shareLedger.Keys == old(shareLedger).Keys + {owner}
      ensures forall other :: other in old(shareLedger) && other != owner ==> shareLedger[other] == old(shareLedger)[other]
      ensures Held(shareLedger) == Held(old(shareLedger)) + amount
    {
      HeldSet(shareLedger, owner, SharesOf(shareLedger, owner) + amount);
      shareLedger := shareLedger[owner := SharesOf(shareLedger, owner) + amount];
    }

    /** Refuses to go below zero, and drops a holder left with nothing. */
    method RemoveShares(owner: Address, amount: int) returns (ok: bool)
      modifies this`shareLedger
      ensures ok == (SharesOf(old(shareLedger), owner) >= amount)
      ensures !ok ==> shareLedger == old(shareLedger)
      ensures ok ==> SharesOf(shareLedger, owner) == SharesOf(old(shareLedger), owner) - amount
      ensures ok ==>
        shareLedger.Keys == old(shareLedger).Keys + {owner} - (if SharesOf(shareLedger, owner) == 0 then {owner} else {})
      ensures forall other :: other in old(shareLedger) && other != owner ==>
        other in shareLedger && shareLedger[other] == old(shareLedger)[other]
    {
      var current := SharesOf(shareLedger, owner);
      ok := current >= amount;
      if ok {
        shareLedger := shareLedger[owner := current - amount];
        if shareLedger[owner] == 0 {
          shareLedger := shareLedger - {owner};
        }
      }
    }
  }

  method InitPool(store: StateStore) returns (r: Result<PoolState, PoolError>)
    requires store.Valid()
    modifies store
    ensures store.Valid() && store.Contents() == old(store.Contents())
    ensures old(store.pool).Some? ==> r == Err(PoolAlreadyInitialized) && store.pool == old(store.pool)
    ensures old(store.pool).None? ==> store.pool == Some(PoolState(0, 0, 0)) && r == Ok(store.pool.value)
  {
    if store.pool.Some? {
      return Err(PoolAlreadyInitialized);
    }
    store.pool := Some(PoolState(0, 0, 0));
    return Ok(store.pool.value);
  }

  datatype Receipt = Receipt(moved: int, priceBefore: int, priceAfter: int)

  /** Refused: the book is as it was. Accepted: it took the step the request describes, and stays sound. */
  ghost predicate Outcome(cfg: PoolConfig, before: Book, request: Request, accepted: bool, after: Book) {
    && (!accepted ==> after == before)
    && (accepted ==> Takes(cfg, before, request, after) && Inv(cfg, after))
  }

  lemma Accepted(cfg: PoolConfig, before: Book, request: Request, after: Book)
    requires cfg.Sane() && Inv(cfg, before) && Takes(cfg, before, request, after)
    ensures Outcome(cfg, before, request, true, after)
  {
    TakesKeeps(cfg, before, request, after);
  }

  lemma SharesNonNegative(cfg: PoolConfig, b: Book, owner: Address)
    requires Inv(cfg, b)
    ensures 0 <= SharesOf(b.shares, owner) <= b.totalShares && b.reserves >= 0
  {
    OwnedAtMostTotal(b, owner);
  }

  /** A certificate found active settles against a registered position and a pool that has reserved its cap. */
  lemma SettleReady(cfg: PoolConfig, b: Book, j: nat, sT: real, fees: nat)
    requires Inv(cfg, b) && j < |b.certificates| && b.certificates[j].status.Active? && sT >= 0.0
    ensures var c := b.certificates[j];
            var i := PositionAt(b.positions, c.mint);
            && i < |b.positions|
            && b.activeCap > 0
            && PayoutUsdc(c, b.positions[i].liquidity, sT) <= c.cap
            && FeeIncome(c, fees) >= 0
  {
    hide PayoutUsdc, FeeIncome;
    assert Written(b, b.certificates[j]);
    PayoutWithinCap(b, b.certificates[j], sT);
    IncomeNonNegative(b.certificates[j], fees);
    ActiveCapsDominate(b, j);
  }

  method DepositUsdc(store: StateStore, depositor: Address, amount: int) returns (r: Result<Receipt, PoolError>)
    requires store.Valid()
    modifies store
    ensures store.Valid()
    ensures Outcome(store.cfg, old(store.Contents()), DepositRequest(depositor, amount), r.Ok?, store.Contents())
    ensures store.pool.Some? == old(store.pool.Some?)
    ensures old(store.pool).None? ==> r == Err(PoolNotInitialized)
    ensures old(store.pool).Some? && r.Err? ==> Deposit(old(store.Contents()), depositor, amount) == Err(r.error)
    ensures r.Ok? ==> r.value.moved == SharesFor(old(store.Contents()), amount) > 0
    ensures r.Ok? && old(store.Contents()).totalShares > 0 ==> r.value.priceBefore <= r.value.priceAfter
  {
    hide Inv;
    if store.pool.None? {
      return Err(PoolNotInitialized);
    }
    if amount <= 0 {
      return Err(AmountNotPositive);
    }
    ghost var b := store.Contents();
    SharesNonNegative(store.cfg, b, depositor);
    var p := store.pool.value;
    var priceBefore := SharePrice(p.reserves, p.totalShares);
    var shares;
    if p.totalShares == 0 || p.reserves == 0 {
      shares := amount;
    } else {
      shares := amount * p.totalShares / p.reserves;
    }
    if shares <= 0 {
      return Err(DepositTooSmall);
    }
    store.pool := Some(p.(reserves := p.reserves + amount, totalShares := p.totalShares + shares));
    store.AddShares(depositor, shares);
    assert store.shareLedger == ProtectionPool.AddShares(b.shares, depositor, shares);
    Accepted(store.cfg, b, DepositRequest(depositor, amount), store.Contents());
    DepositNoCheaper(store.cfg, b, depositor, amount);
    if b.totalShares > 0 {
      SharePriceNoLess(b, store.Contents());
    }
    return Ok(Receipt(shares, priceBefore, SharePrice(store.pool.value.reserves, store.pool.value.totalShares)));
  }

  method WithdrawUsdc(store: StateStore, withdrawer: Address, burned: int) returns (r: Result<Receipt, PoolError>)
    requires store.Valid()
    modifies store
    ensures store.Valid()
    ensures Outcome(store.cfg, old(store.Contents()), WithdrawRequest(withdrawer, burned), r.Ok?, store.Contents())
    ensures store.pool.Some? == old(store.pool.Some?)
    ensures old(store.pool).None? ==> r == Err(PoolNotInitialized)
    ensures old(store.pool).Some? && r.Err? ==>
              Defined(store.cfg, old(store.Contents()), withdrawer)
              && Withdraw(store.cfg, old(store.Contents()), withdrawer, burned) == Err(r.error)
    ensures r.Ok? ==> old(store.Contents()).totalShares > 0 && r.value.moved == UsdcFor(old(store.Contents()), burned)
    ensures r.Ok? && store.Contents().totalShares > 0 ==> r.value.priceBefore <= r.value.priceAfter
  {
    if store.pool.None? {
      return Err(PoolNotInitialized);
    }
    ghost var b := store.Contents();
    WithdrawDefined(store.cfg, b, withdrawer);
    if burned <= 0 {
      return Err(AmountNotPositive);
    }
    if SharesOf(store.shareLedger, withdrawer) < burned {
      return Err(InsufficientShares);
    }
    WithdrawBounded(store.cfg, b, withdrawer, burned);
    var p := store.pool.value;
    var priceBefore := SharePrice(p.reserves, p.totalShares);
    var usdc := burned * p.reserves / p.totalShares;
    if p.activeCap > 0 {
      var minReserves := MinReserves(store.cfg, p.activeCap);
      if p.reserves - usdc < minReserves {
        return Err(WouldBreachUtilization);
      }
    }
    store.pool := Some(p.(reserves := p.reserves - usdc, totalShares := p.totalShares - burned));
    var removed := store.RemoveShares(withdrawer, burned);
    assert removed && store.shareLedger == ProtectionPool.RemoveShares(b.shares, withdrawer, burned);
    Accepted(store.cfg, b, WithdrawRequest(withdrawer, burned), store.Contents());
    WithdrawNoCheaper(store.cfg, b, withdrawer, burned);
    if store.Contents().totalShares > 0 {
      SharePriceNoLess(b, store.Contents());
    }
    return Ok(Receipt(usdc, priceBefore, SharePrice(store.pool.value.reserves, store.pool.value.totalShares)));
  }

  method RegisterLockedPosition(store: StateStore, owner: Address, mint: Address, entry: real, liquidity: real)
    returns (r: Result<(), PoolError>)
    requires store.Valid() && entry >= 0.0 && liquidity >= 0.0
    modifies store
    ensures store.Valid()
    ensures Outcome(store.cfg, old(store.Contents()), RegisterRequest(owner, mint, entry, liquidity), r.Ok?, store.Contents())
    ensures store.pool.Some? == old(store.pool.Some?)
    ensures r.Err? ==> Register(old(store.Contents()), owner, mint, entry, liquidity) == Err(r.error)
  {
    if PositionAt(store.positions, mint) < |store.positions| {
      return Err(PositionExists);
    }
    ghost var b := store.Contents();
    store.positions := store.positions + [Position(mint, owner, entry, liquidity, true, false)];
    Accepted(store.cfg, b, RegisterRequest(owner, mint, entry, liquidity), store.Contents());
    return Ok(());
  }

  method ReleasePosition(store: StateStore, owner: Address, mint: Address) returns (r: Result<(), PoolError>)
    requires store.Valid()
    modifies store
    ensures store.Valid() && Outcome(store.cfg, old(store.Contents()), ReleaseRequest(owner, mint), r.Ok?, store.Contents())
    ensures store.pool.Some? == old(store.pool.Some?)
    ensures r.Err? ==> Release(old(store.Contents()), owner, mint) == Err(r.error)
  {
    var i := PositionAt(store.positions, mint);
    if i == |store.positions| {
      return Err(PositionNotFound);
    }
    var p := store.positions[i];
    if p.owner != owner {
      return Err(NotOwner);
    }
    if p.guarded {
      return Err(Protected);
    }
    if !p.locked {
      return Err(NotLocked);
    }
    ghost var b := store.Contents();
    store.positions := store.positions[i := p.(locked := false)];
    Accepted(store.cfg, b, ReleaseRequest(owner, mint), store.Contents());
    return Ok(());
  }

  method BuyCertificate(store: StateStore, buyer: Address, mint: Address, offer: Offer)
    returns (r: Result<Certificate, PoolError>)
    requires store.Valid() && BuyRequest(buyer, mint, offer).Proper(store.Contents())
    modifies store
    ensures store.Valid() && Outcome(store.cfg, old(store.Contents()), BuyRequest(buyer, mint, offer), r.Ok?, store.Contents())
    ensures store.pool.Some? == old(store.pool.Some?)
    ensures old(store.pool).None? ==> r == Err(PoolNotInitialized)
    ensures old(store.pool).Some? && r.Err? ==>
              Buy(store.cfg, old(store.Contents()), buyer, mint, offer) == Err(r.error) && !r.error.QuoteFailed?
    ensures r.Ok? ==> store.certificates == old(store.certificates) + [r.value]
  {
    hide Inv, CapUsdc, QuoteHasHeadroom;
    if store.pool.None? {
      return Err(PoolNotInitialized);
    }
    ghost var b := store.Contents();
    var i := PositionAt(store.positions, mint);
    if i == |store.positions| {
      return Err(PositionNotFound);
    }
    var position := store.positions[i];
    if !position.locked {
      return Err(NotLocked);
    }
    if position.guarded {
      return Err(Protected);
    }
    if offer.template.None? {
      return Err(TemplateNotFound);
    }
    if offer.regime.Missing? {
      return Err(NoRegime);
    }
    if offer.regime.Stale? {
      return Err(StaleRegime);
    }
    var t := offer.template.value;
    var cap := CapUsdc(position.entry, position.liquidity, t.lower, t.upper);
    if cap <= 0 {
      return Err(CapNotPositive);
    }
    var p := store.pool.value;
    var maxCap := p.reserves * store.cfg.uMaxBps / BPS;
    if cap > (if maxCap - p.activeCap > 0 then maxCap - p.activeCap else 0) {
      return Err(NoHeadroom);
    }
    SecondTestRedundant(store.cfg, b, cap);
    var fee := offer.premium * store.cfg.protocolFeeBps / BPS;
    var cert := Certificate(mint, buyer, position.entry, t.lower, t.upper, cap, offer.premium, fee,
                            store.cfg.feeSplitRate, offer.now + t.tenor, Active, 0, 0);
    store.certificates := store.certificates + [cert];
    store.pool := Some(p.(reserves := p.reserves + (offer.premium - fee), activeCap := p.activeCap + cap));
    store.positions := store.positions[i := position.(guarded := true)];
    Accepted(store.cfg, b, BuyRequest(buyer, mint, offer), store.Contents());
    return Ok(cert);
  }

  datatype SettleReceipt = SettleReceipt(payout: int, feeIncome: int, status: CertificateStatus)

  method SettleCertificate(store: StateStore, mint: Address, sT: real, fees: nat, now: int)
    returns (r: Result<SettleReceipt, PoolError>)
    requires store.Valid() && sT >= 0.0
    modifies store
    ensures store.Valid()
    ensures Outcome(store.cfg, old(store.Contents()), SettleRequest(mint, sT, fees, now), r.Ok?, store.Contents())
    ensures store.pool.Some? == old(store.pool.Some?)
    ensures r.Err? ==> Settle(old(store.Contents()), mint, sT, fees, now) == Err(r.error)
    ensures r.Ok? ==> |store.certificates| == |old(store.certificates)|
    ensures r.Ok? ==>
              var c := old(store.Contents()).certificates[CertificateAt(old(store.certificates), mint)];
              var c' := store.certificates[CertificateAt(old(store.certificates), mint)];
              r.value.payout <= c.cap && r.value.feeIncome >= 0
              && r.value == SettleReceipt(c'.payout, c'.feeIncome, c'.status)
              && store.Contents().reserves == old(store.Contents()).reserves - r.value.payout + r.value.feeIncome
  {
    hide PayoutUsdc, FeeIncome, Inv;
    var j := CertificateAt(store.certificates, mint);
    if j == |store.certificates| {
      return Err(CertificateNotFound);
    }
    var cert := store.certificates[j];
    if !cert.status.Active? {
      return Err(NotActive);
    }
    if now < cert.expiry {
      return Err(NotExpired);
    }
    ghost var b := store.Contents();
    SettleReady(store.cfg, b, j, sT, fees);
    var i := PositionAt(store.positions, mint);
    var position := store.positions[i];
    var payout := PayoutUsdc(cert, position.liquidity, sT);
    var income := FeeIncome(cert, fees);
    var status := if payout != 0 then Settled else Expired;
    if store.pool.None? {
      assert false;
      return Err(PoolNotInitialized);
    }
    var p := store.pool.value;
    store.certificates := store.certificates[j := cert.(status := status, payout := payout, feeIncome := income)];
    store.pool := Some(p.(reserves := p.reserves - payout + income, activeCap := p.activeCap - cert.cap));
    store.positions := store.positions[i := position.(guarded := false)];
    Accepted(store.cfg, b, SettleRequest(mint, sT, fees, now), store.Contents());
    return Ok(SettleReceipt(payout, income, status));
  }
}
