/** The optional value and the outcome of an operation that may throw. */
module Outcomes {
  datatype Option<+T> = None | Some(value: T)
  datatype Result<+T, +E> = Ok(value: T) | Err(error: E)
}

/**
 * Records of the certificate ledger. Money is integer micro-USDC, time is unix seconds.
 * A JavaScript Map keyed by a field of its values is kept as the sequence of its values
 * in insertion order; the lookups below read it as the Map it is.
 */
module HedgeTypes {
  import opened Outcomes

  /** Quote ids, reference keys, transaction signatures, wallets and mints. */
  datatype Key = Key(text: string)

  datatype Position = Position(
    mint: Key, owner: Key, liquidity: nat, tickLower: int, tickUpper: int,
    decimalsA: nat, decimalsB: nat, currentPrice: real)

  /** What pricing answers for a position; the ledger treats it as given. */
  datatype Priced = Priced(
    priceLower: real, priceUpper: real, entryValue: int, premium: nat, capDown: nat, capUp: nat)

  datatype QuoteTerms = QuoteTerms(
    quoteId: Key, referenceKey: Key, position: Position, priceLower: real, priceUpper: real,
    entryValue: int, premium: nat, capDown: nat, capUp: nat, totalPayable: nat, protocolFee: nat,
    issuedAt: int, validUntil: int)
  datatype QuoteStatus = Open | Lapsed | Consumed
  datatype Quote = Quote(terms: QuoteTerms, status: QuoteStatus)

  datatype Transfer = Transfer(txSignature: Key, referenceKey: Key, sender: Key, amount: int)
  datatype PaymentTerms = PaymentTerms(
    txSignature: Key, referenceKey: Key, sender: Key, amount: nat, observedAt: int)
  datatype Payment = Payment(terms: PaymentTerms, matched: bool)

  datatype FeeCheckpoint = FeeCheckpoint(insideA: nat, insideB: nat, liquidity: nat, takenAt: int)
  datatype Reading = Reading(price: real, slot: nat, crossCheckPrice: real, divergenceBps: int)
  datatype Settlement = Settlement(price: real, payoff: int, feeSplit: int, amount: int, settledAt: int)
  datatype CertTerms = CertTerms(
    quoteId: Key, mint: Key, buyer: Key, premium: nat, capDown: nat, capUp: nat,
    activatedAt: int, expiry: int)
  datatype CertStatus = Active | Settled | Expired
  datatype Cert = Cert(
    terms: CertTerms, status: CertStatus,
    feeCheckpoint: Option<FeeCheckpoint>, settlement: Option<Settlement>)

  datatype State = State(
    paused: bool, initialReserves: int, treasury: int,
    totalIn: int, totalSettled: int, totalRefunded: int,
    quotes: seq<Quote>, payments: seq<Payment>, certs: seq<Cert>)

  /**
   * positionValue is the valuation of the position at a price, in USD: any function at all.
   */
  datatype Config = Config(
    uMaxBps: nat, protocolFeeBps: nat, feeSplitRate: real, tenorSeconds: nat, quoteTtlSeconds: nat,
    regimeMaxAgeSeconds: nat, perBuyerCapDownLimit: nat, maxOpenQuotesPerOwner: nat,
    maxLifetimeQuotes: nat, positionValue: (Position, real) -> real)
  {
    /** Utilisation is a share of the reserves, and so is the fee split of the fees. */
    predicate Sane() {
      uMaxBps <= 10_000 && 0.0 <= feeSplitRate
    }
  }

  datatype Event =
    | LedgerOpened(ts: int, initialReserves: int)
    | QuoteIssued(ts: int, quote: Quote)
    | QuoteLapsed(ts: int, quoteId: Key)
    | PaymentObserved(ts: int, payment: Payment)
    | CertificateActivated(ts: int, cert: Cert, txSignature: Key)
    | FeeCheckpointRecorded(ts: int, quoteId: Key, checkpoint: FeeCheckpoint)
    | PaymentRefunded(ts: int, txSignature: Key, amount: int, reason: RefundReason)
    | CertificateSettled(ts: int, quoteId: Key, reading: Reading, payoff: int, feeSplit: int,
                         amount: int, finalStatus: CertStatus)
    | PausedSet(ts: int, paused: bool)
  datatype RefundReason = UnknownReference | WrongAmount | QuoteNoLongerOpen

  datatype LedgerError =
    | InvalidAmount | QuotingPaused | RegimeStale | OpenQuoteExists | AlreadyProtected | QuoteCeiling
    | TooManyOpenQuotes | PricingRefused | HeadroomExceeded | UnknownPayment | AlreadyMatched
    | StillMatchable | UnknownCertificate | NotActive | NotExpired | TreasuryShort
    | BadLogStart | DuplicateOpened | UnknownQuote | DanglingActivation | InvariantViolation

  // ---- Map lookups: the index of the first hit, or the length when there is none ----

  function QuoteById(qs: seq<Quote>, id: Key): (i: nat)
    ensures i <= |qs|
    ensures i < |qs| ==> qs[i].terms.quoteId == id
    ensures forall k :: 0 <= k < i ==> qs[k].terms.quoteId != id
  {
    if qs == [] then 0
    else
      var i := QuoteById(qs[..|qs| - 1], id);
      if i < |qs| - 1 || qs[i].terms.quoteId == id then i else |qs|
  }

  function QuoteByRef(qs: seq<Quote>, r: Key): (i: nat)
    ensures i <= |qs|
    ensures i < |qs| ==> qs[i].terms.referenceKey == r
    ensures forall k :: 0 <= k < i ==> qs[k].terms.referenceKey != r
  {
    if qs == [] then 0
    else
      var i := QuoteByRef(qs[..|qs| - 1], r);
      if i < |qs| - 1 || qs[i].terms.referenceKey == r then i else |qs|
  }

  function PaymentByTx(ps: seq<Payment>, tx: Key): (i: nat)
    ensures i <= |ps|
    ensures i < |ps| ==> ps[i].terms.txSignature == tx
    ensures forall k :: 0 <= k < i ==> ps[k].terms.txSignature != tx
  {
    if ps == [] then 0
    else
      var i := PaymentByTx(ps[..|ps| - 1], tx);
      if i < |ps| - 1 || ps[i].terms.txSignature == tx then i else |ps|
  }

  function CertById(cs: seq<Cert>, id: Key): (i: nat)
    ensures i <= |cs|
    ensures i < |cs| ==> cs[i].terms.quoteId == id
    ensures forall k :: 0 <= k < i ==> cs[k].terms.quoteId != id
  {
    if cs == [] then 0
    else
      var i := CertById(cs[..|cs| - 1], id);
      if i < |cs| - 1 || cs[i].terms.quoteId == id then i else |cs|
  }
}
