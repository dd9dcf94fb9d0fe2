/**
 * The NAV-based protection pool of the protocol emulator: risk takers deposit and withdraw against
 * shares, liquidity providers buy and settle certificates. This module gives every operation as a
 * function from one book to the next, or to the error the operation throws.
 */
module ProtectionPool {
  import opened FixedPoint
  import opened Outcomes
  import opened PositionValue

  const BPS: nat := 10_000
  const PPM: nat := 1_000_000
  const E6: real := 1_000_000.0

  datatype Address = Address(text: string)

  /** A locked position: the root of its entry price and its liquidity never change. */
  datatype Position = Position(mint: Address, owner: Address, entry: real, liquidity: real, locked: bool, guarded: bool)

  datatype CertificateStatus = Active | Settled | Expired

  datatype Certificate = Certificate(
    mint: Address, buyer: Address, entry: real, lower: real, upper: real,
    cap: int, premium: nat, protocolFee: int, feeSplitRate: real, expiry: int,
    status: CertificateStatus, payout: int, feeIncome: int)

  /** What initPool fixes. */
  datatype PoolConfig = PoolConfig(uMaxBps: nat, protocolFeeBps: nat, feeSplitRate: real) {
    ghost predicate Sane() { uMaxBps <= BPS && protocolFeeBps <= BPS && feeSplitRate >= 0.0 }
  }

  datatype Book = Book(
    reserves: int, totalShares: int, activeCap: int,
    shares: map<Address, int>, positions: seq<Position>, certificates: seq<Certificate>)

  datatype PoolError =
    | PoolNotInitialized | PoolAlreadyInitialized
    | AmountNotPositive | DepositTooSmall | InsufficientShares | WouldBreachUtilization
    | PositionExists | PositionNotFound | NotOwner | Protected | NotLocked
    | TemplateNotFound | NoRegime | StaleRegime | CapNotPositive | NoHeadroom | QuoteFailed
    | CertificateNotFound | NotActive | NotExpired

  // -------------------------------------------------------------------------
  // Store lookups
  // -------------------------------------------------------------------------

  function SharesOf(shares: map<Address, int>, owner: Address): int {
    if owner in shares then shares[owner] else 0
  }

  function AddShares(shares: map<Address, int>, owner: Address, amount: int): map<Address, int> {
    shares[owner := SharesOf(shares, owner) + amount]
  }

  /** A holder left with nothing is dropped from the ledger. */
  function RemoveShares(shares: map<Address, int>, owner: Address, amount: int): map<Address, int> {
    if SharesOf(shares, owner) == amount then shares - {owner}
    else shares[owner := SharesOf(shares, owner) - amount]
  }

  /** The index of the first position on a mint, or the number of positions. */
  function PositionAt(positions: seq<Position>, mint: Address): (i: nat)
    ensures i <= |positions|
    ensures i < |positions| ==> positions[i].mint == mint
    ensures forall k :: 0 <= k < i ==> positions[k].mint != mint
  {
    if positions == [] then 0
    else if positions[0].mint == mint then 0
    else 1 + PositionAt(positions[1..], mint)
  }

  /** The index of the first certificate on a mint, or the number of certificates. */
  function CertificateAt(certificates: seq<Certificate>, mint: Address): (i: nat)
    ensures i <= |certificates|
    ensures i < |certificates| ==> certificates[i].mint == mint
    ensures forall k :: 0 <= k < i ==> certificates[k].mint != mint
  {
    if certificates == [] then 0
    else if certificates[0].mint == mint then 0
    else 1 + CertificateAt(certificates[1..], mint)
  }

  function ActiveCapOf(c: Certificate): int { if c.status.Active? then c.cap else 0 }

  // -------------------------------------------------------------------------
  // Deposit and withdraw
  // -------------------------------------------------------------------------

  /** Micro-USDC a million shares are worth; one dollar for an empty pool. */
  function SharePrice(reserves: int, totalShares: int): int {
    if totalShares == 0 then 1_000_000 else reserves * 1_000_000 / totalShares
  }

  function SharesFor(b: Book, amount: int): int {
    if b.totalShares == 0 || b.reserves == 0 then amount else amount * b.totalShares / b.reserves
  }

  function Deposit(b: Book, depositor: Address, amount: int): Result<Book, PoolError> {
    if amount <= 0 then Err(AmountNotPositive)
    else
      var minted := SharesFor(b, amount);
      if minted <= 0 then Err(DepositTooSmall)
      else Ok(b.(reserves := b.reserves + amount,
                 totalShares := b.totalShares + minted,
                 shares := AddShares(b.shares, depositor, minted)))
  }

  function UsdcFor(b: Book, burned: int): int
    requires b.totalShares != 0
  {
    burned * b.reserves / b.totalShares
  }

  /** The least reserves the active caps allow, rounded up. */
  function MinReserves(cfg: PoolConfig, activeCap: int): int
    requires cfg.uMaxBps > 0
  {
    -(-(activeCap * BPS) / cfg.uMaxBps)
  }

  function Withdraw(cfg: PoolConfig, b: Book, owner: Address, burned: int): Result<Book, PoolError>
    requires b.totalShares == 0 ==> SharesOf(b.shares, owner) <= 0
    requires b.activeCap > 0 ==> cfg.uMaxBps > 0
  {
    if burned <= 0 then Err(AmountNotPositive)
    else if SharesOf(b.shares, owner) < burned then Err(InsufficientShares)
    else
      var usdc := UsdcFor(b, burned);
      if b.activeCap > 0 && b.reserves - usdc < MinReserves(cfg, b.activeCap) then Err(WouldBreachUtilization)
      else Ok(b.(reserves := b.reserves - usdc,
                 totalShares := b.totalShares - burned,
                 shares := RemoveShares(b.shares, owner, burned)))
  }

  // -------------------------------------------------------------------------
  // Escrow
  // -------------------------------------------------------------------------

  function Register(b: Book, owner: Address, mint: Address, entry: real, liquidity: real): Result<Book, PoolError> {
    if PositionAt(b.positions, mint) < |b.positions| then Err(PositionExists)
    else Ok(b.(positions := b.positions + [Position(mint, owner, entry, liquidity, true, false)]))
  }

  function Release(b: Book, owner: Address, mint: Address): Result<Book, PoolError> {
    var i := PositionAt(b.positions, mint);
    if i == |b.positions| then Err(PositionNotFound)
    else if b.positions[i].owner != owner then Err(NotOwner)
    else if b.positions[i].guarded then Err(Protected)
    else if !b.positions[i].locked then Err(NotLocked)
    else Ok(b.(positions := b.positions[i := b.positions[i].(locked := false)]))
  }

  // -------------------------------------------------------------------------
  // Certificates
  // -------------------------------------------------------------------------

  datatype Regime = Missing | Stale | Fresh

  /** A template seen from one entry price: the roots of its range ends and its tenor. */
  datatype Template = Template(lower: real, upper: real, tenor: nat)

  /** What buyCertificate reads from outside the book: template, regime, clock and the quoted premium. */
  datatype Offer = Offer(template: Option<Template>, regime: Regime, now: int, premium: nat)

  function AvailableHeadroom(cfg: PoolConfig, b: Book): int {
    var room := b.reserves * cfg.uMaxBps / BPS - b.activeCap;
    if room >= 0 then room else 0
  }

  /** The second utilisation test, inside the quote, in parts per million. */
  function QuoteHasHeadroom(cfg: PoolConfig, b: Book, cap: int): bool {
    var reserves := if b.reserves > 0 then b.reserves else PPM;
    (b.activeCap + cap) * PPM / reserves <= cfg.uMaxBps * 100
  }

  function CapUsdc(entry: real, liquidity: real, lower: real, upper: real): int {
    (NaturalCap(entry, liquidity, lower, upper) * E6).Floor
  }

  function ProtocolFee(cfg: PoolConfig, premium: nat): int { premium * cfg.protocolFeeBps / BPS }

  function NewCertificate(cfg: PoolConfig, p: Position, buyer: Address, t: Template, offer: Offer): Certificate {
    Certificate(p.mint, buyer, p.entry, t.lower, t.upper,
                CapUsdc(p.entry, p.liquidity, t.lower, t.upper),
                offer.premium, ProtocolFee(cfg, offer.premium), cfg.feeSplitRate, offer.now + t.tenor,
                Active, 0, 0)
  }

  function Buy(cfg: PoolConfig, b: Book, buyer: Address, mint: Address, offer: Offer): Result<Book, PoolError> {
    var i := PositionAt(b.positions, mint);
    if i == |b.positions| then Err(PositionNotFound)
    else
      var p := b.positions[i];
      if !p.locked then Err(NotLocked)
      else if p.guarded then Err(Protected)
      else if offer.template.None? then Err(TemplateNotFound)
      else if offer.regime.Missing? then Err(NoRegime)
      else if offer.regime.Stale? then Err(StaleRegime)
      else
        var c := NewCertificate(cfg, p, buyer, offer.template.value, offer);
        if c.cap <= 0 then Err(CapNotPositive)
        else if c.cap > AvailableHeadroom(cfg, b) then Err(NoHeadroom)
        else if !QuoteHasHeadroom(cfg, b, c.cap) then Err(QuoteFailed)
        else Ok(b.(reserves := b.reserves + (c.premium - c.protocolFee),
                   activeCap := b.activeCap + c.cap,
                   certificates := b.certificates + [c],
                   positions := b.positions[i := p.(guarded := true)]))
  }

  function PayoutUsdc(c: Certificate, liquidity: real, sT: real): int {
    Trunc(LhPayoff(sT, c.entry, liquidity, c.lower, c.upper) * E6)
  }

  function FeeIncome(c: Certificate, fees: nat): int { (c.feeSplitRate * fees as real).Floor }

  function Closed(c: Certificate, payout: int, feeIncome: int): Certificate {
    c.(status := if payout != 0 then Settled else Expired, payout := payout, feeIncome := feeIncome)
  }

  function Settle(b: Book, mint: Address, sT: real, fees: nat, now: int): Result<Book, PoolError> {
    var j := CertificateAt(b.certificates, mint);
    if j == |b.certificates| then Err(CertificateNotFound)
    else
      var c := b.certificates[j];
      if !c.status.Active? then Err(NotActive)
      else if now < c.expiry then Err(NotExpired)
      else
        var i := PositionAt(b.positions, mint);
        if i == |b.positions| then Err(PositionNotFound)
        else
          var payout := PayoutUsdc(c, b.positions[i].liquidity, sT);
          var income := FeeIncome(c, fees);
          Ok(b.(reserves := b.reserves - payout + income,
                activeCap := b.activeCap - c.cap,
                certificates := b.certificates[j := Closed(c, payout, income)],
                positions := b.positions[i := b.positions[i].(guarded := false)]))
  }

  // -------------------------------------------------------------------------
  // Runs
  // -------------------------------------------------------------------------

  datatype Request =
    | DepositRequest(owner: Address, amount: int)
    | WithdrawRequest(owner: Address, burned: int)
    | RegisterRequest(owner: Address, mint: Address, entry: real, liquidity: real)
    | ReleaseRequest(owner: Address, mint: Address)
    | BuyRequest(buyer: Address, mint: Address, offer: Offer)
    | SettleRequest(mint: Address, sT: real, fees: nat, now: int)
  {
    /** Prices and liquidity are not negative, and a template's range contains the entry price. */
    ghost predicate Proper(b: Book) {
      match this
      case RegisterRequest(_, _, entry, liquidity) => entry >= 0.0 && liquidity >= 0.0
      case BuyRequest(_, mint, offer) =>
        var i := PositionAt(b.positions, mint);
        offer.template.Some? && i < |b.positions| ==>
          0.0 <= offer.template.value.lower <= b.positions[i].entry <= offer.template.value.upper
      case SettleRequest(_, sT, _, _) => sT >= 0.0
      case _ => true
    }
  }
}
