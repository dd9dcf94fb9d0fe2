/**
 * The guards of ledger.ts and what each committed event does to the state. A transition is one
 * call of commit: the state before the mutation, the event, the state after it.
 */
module HedgeTransitions {
  import opened FixedPoint
  import opened Outcomes
  import opened HedgeTypes
  import opened HedgeInvariants
  import opened Sums

  // ---- Guards ----

  /** An open quote that an exact payment could still activate. */
  predicate Live(q: Quote, now: int) {
    q.status == Open && now <= q.terms.validUntil
  }

  predicate LiveFor(q: Quote, now: int, mint: Key) {
    Live(q, now) && q.terms.position.mint == mint
  }

  predicate Protects(c: Cert, mint: Key) {
    c.status == Active && c.terms.mint == mint
  }

  predicate HasLiveQuote(qs: seq<Quote>, now: int, mint: Key) {
    exists i :: 0 <= i < |qs| && LiveFor(qs[i], now, mint)
  }

  predicate HasActiveCert(cs: seq<Cert>, mint: Key) {
    exists i :: 0 <= i < |cs| && Protects(cs[i], mint)
  }

  /** Adds one to the count of the owner's live quotes. */
  function LiveOf(now: int, owner: Key): Quote -> int {
    (q: Quote) => if Live(q, now) && q.terms.position.owner == owner then 1 else 0
  }

  function LiveQuotesOf(qs: seq<Quote>, now: int, owner: Key): int { Sum(qs, LiveOf(now, owner)) }

  function ExposureOf(wallet: Key): Cert -> int {
    (c: Cert) => if c.status == Active && c.terms.buyer == wallet then c.terms.capDown else 0
  }

  function BuyerExposure(cs: seq<Cert>, wallet: Key): int { Sum(cs, ExposureOf(wallet)) }

  predicate Headroom(cfg: Config, s: State, capDown: nat) {
    (ActiveCapDown(s) + capDown) * 10_000 <= NetReserves(s) * cfg.uMaxBps
  }

  predicate WithinBuyerLimit(cfg: Config, s: State, wallet: Key, capDown: nat) {
    cfg.perBuyerCapDownLimit > 0 ==> BuyerExposure(s.certs, wallet) + capDown <= cfg.perBuyerCapDownLimit
  }

  /** The first reason, in the order of the code, for which issueQuote throws. */
  function QuoteRefusal(cfg: Config, s: State, now: int, pos: Position, regimeUpdatedAt: int,
                        priced: Option<Priced>): Option<LedgerError>
  {
    if s.paused then Some(QuotingPaused)
    else if now - regimeUpdatedAt > cfg.regimeMaxAgeSeconds then Some(RegimeStale)
    else if HasLiveQuote(s.quotes, now, pos.mint) then Some(OpenQuoteExists)
    else if HasActiveCert(s.certs, pos.mint) then Some(AlreadyProtected)
    else if cfg.maxLifetimeQuotes > 0 && |s.quotes| >= cfg.maxLifetimeQuotes then Some(QuoteCeiling)
    else if cfg.maxOpenQuotesPerOwner > 0 && LiveQuotesOf(s.quotes, now, pos.owner) >= cfg.maxOpenQuotesPerOwner
      then Some(TooManyOpenQuotes)
    else if priced.None? then Some(PricingRefused)
    else if !Headroom(cfg, s, priced.value.capDown) then Some(HeadroomExceeded)
    else None
  }

  function NewQuote(cfg: Config, now: int, pos: Position, p: Priced, id: Key, r: Key): Quote {
    Quote(QuoteTerms(id, r, pos, p.priceLower, p.priceUpper, p.entryValue, p.premium, p.capDown,
                     p.capUp, p.premium + p.capUp, p.premium * cfg.protocolFeeBps / 10_000,
                     now, now + cfg.quoteTtlSeconds), Open)
  }

  /** All that tryActivate asks of the payment and of the quote it references. */
  predicate Activates(cfg: Config, s: State, now: int, p: PaymentTerms) {
    var i := QuoteByRef(s.quotes, p.referenceKey);
    && !s.paused
    && i < |s.quotes|
    && Live(s.quotes[i], now)
    && var q := s.quotes[i].terms;
    && p.amount == q.totalPayable
    && CertById(s.certs, q.quoteId) == |s.certs|
    && p.sender == q.position.owner
    && WithinBuyerLimit(cfg, s, p.sender, q.capDown)
    && Headroom(cfg, s, q.capDown)
  }

  function NewCert(cfg: Config, now: int, q: QuoteTerms): Cert {
    Cert(CertTerms(q.quoteId, q.position.mint, q.position.owner, q.premium, q.capDown, q.capUp,
                   now, now + cfg.tenorSeconds), Active, None, None)
  }

  /** A payment that can no longer activate. */
  predicate Refundable(s: State, now: int, p: PaymentTerms) {
    var i := QuoteByRef(s.quotes, p.referenceKey);
    || i == |s.quotes|
    || !Live(s.quotes[i], now)
    || p.amount != s.quotes[i].terms.totalPayable
  }

  function RefundReasonFor(s: State, p: PaymentTerms): RefundReason {
    var i := QuoteByRef(s.quotes, p.referenceKey);
    if i == |s.quotes| then UnknownReference
    else if p.amount != s.quotes[i].terms.totalPayable then WrongAmount
    else QuoteNoLongerOpen
  }

  function RefundRefusal(s: State, now: int, tx: Key): Option<LedgerError> {
    var i := PaymentByTx(s.payments, tx);
    if i == |s.payments| then Some(UnknownPayment)
    else if s.payments[i].matched then Some(AlreadyMatched)
    else if !Refundable(s, now, s.payments[i].terms) then Some(StillMatchable)
    else None
  }

  // ---- Settlement arithmetic ----

  function ClampPrice(x: real, lower: real, upper: real): real {
    var y := if x >= lower then x else lower;
    if y <= upper then y else upper
  }

  function Payoff(cfg: Config, q: QuoteTerms, c: CertTerms, price: real): int {
    var entry := q.entryValue as real / 1000000.0;
    var value := cfg.positionValue(q.position, ClampPrice(price, q.priceLower, q.priceUpper));
    Min(Max(Trunc((entry - value) * 1000000.0), -(c.capUp as int)), c.capDown)
  }

  function FeeSplit(cfg: Config, fees: int): int {
    (cfg.feeSplitRate * fees as real).Floor
  }

  function SettlementAmount(payoff: int, feeSplit: int, capUp: nat): int {
    Max(0, payoff - feeSplit + capUp)
  }

  function FinalStatus(payoff: int): CertStatus { if payoff == 0 then Expired else Settled }

  function SettleRefusal(cfg: Config, s: State, now: int, id: Key, price: real, fees: int): Option<LedgerError> {
    var i := CertById(s.certs, id);
    var k := QuoteById(s.quotes, id);
    if fees < 0 then Some(InvalidAmount)
    else if i == |s.certs| then Some(UnknownCertificate)
    else if s.certs[i].status != Active then Some(NotActive)
    else if now < s.certs[i].terms.expiry then Some(NotExpired)
    else if k == |s.quotes| then Some(UnknownQuote)
    else
      var c := s.certs[i].terms;
      var payoff := Payoff(cfg, s.quotes[k].terms, c, price);
      if SettlementAmount(payoff, FeeSplit(cfg, fees), c.capUp) > s.treasury then Some(TreasuryShort)
      else None
  }

  // ---- Mutations ----

  function OpenedState(reserves: int): State {
    State(false, reserves, reserves, 0, 0, 0, [], [], [])
  }

  function WithLapsed(s: State, i: nat): State
    requires i < |s.quotes|
  {
    s.(quotes := s.quotes[i := s.quotes[i].(status := Lapsed)])
  }

  function WithPayment(s: State, p: Payment): State {
    s.(payments := s.payments + [p], treasury := s.treasury + p.terms.amount,
       totalIn := s.totalIn + p.terms.amount)
  }

  function WithCert(s: State, qi: nat, pi: nat, c: Cert): State
    requires qi < |s.quotes| && pi < |s.payments|
  {
    s.(quotes := s.quotes[qi := s.quotes[qi].(status := Consumed)],
       payments := s.payments[pi := s.payments[pi].(matched := true)],
       certs := s.certs + [c])
  }

  function WithCheckpoint(s: State, i: nat, cp: FeeCheckpoint): State
    requires i < |s.certs|
  {
    s.(certs := s.certs[i := s.certs[i].(feeCheckpoint := Some(cp))])
  }

  function WithRefund(s: State, i: nat): State
    requires i < |s.payments|
  {
    var amount := s.payments[i].terms.amount;
    s.(payments := s.payments[i := s.payments[i].(matched := true)],
       treasury := s.treasury - amount, totalRefunded := s.totalRefunded + amount)
  }

  function WithSettlement(s: State, i: nat, x: Settlement, status: CertStatus): State
    requires i < |s.certs|
  {
    s.(certs := s.certs[i := s.certs[i].(status := status, settlement := Some(x))],
       treasury := s.treasury - x.amount, totalSettled := s.totalSettled + x.amount)
  }

  // ---- One commit ----

  predicate Transition(cfg: Config, s: State, e: Event, s': State) {
    match e
    case LedgerOpened(_, _) => false
    case QuoteIssued(ts, q) => IssueStep(cfg, s, ts, q, s')
    case QuoteLapsed(ts, id) => LapseStep(s, ts, id, s')
    case PaymentObserved(ts, p) => ObserveStep(s, ts, p, s')
    case CertificateActivated(ts, c, tx) => ActivateStep(cfg, s, ts, c, tx, s')
    case FeeCheckpointRecorded(_, id, cp) => CheckpointStep(s, id, cp, s')
    case PaymentRefunded(ts, tx, amount, reason) => RefundStep(s, ts, tx, amount, reason, s')
    case CertificateSettled(_, _, _, _, _, _, _) => SettleStep(cfg, s, e, s')
    case PausedSet(_, b) => s' == s.(paused := b)
  }

  function PricedOf(q: QuoteTerms): Priced {
    Priced(q.priceLower, q.priceUpper, q.entryValue, q.premium, q.capDown, q.capUp)
  }

  /** The quote id and the reference key come fresh from the id source. */
  predicate IssueStep(cfg: Config, s: State, now: int, q: Quote, s': State) {
    var t := q.terms;
    && q == NewQuote(cfg, now, t.position, PricedOf(t), t.quoteId, t.referenceKey)
    && QuoteById(s.quotes, t.quoteId) == |s.quotes|
    && QuoteByRef(s.quotes, t.referenceKey) == |s.quotes|
    && QuoteRefusal(cfg, s, now, t.position, now, Some(PricedOf(t))) == None
    && s' == s.(quotes := s.quotes + [q])
  }

  predicate LapseStep(s: State, now: int, id: Key, s': State) {
    var i := QuoteById(s.quotes, id);
    && i < |s.quotes|
    && s.quotes[i].status == Open
    && now > s.quotes[i].terms.validUntil
    && s' == WithLapsed(s, i)
  }

  predicate ObserveStep(s: State, now: int, p: Payment, s': State) {
    && PaymentByTx(s.payments, p.terms.txSignature) == |s.payments|
    && !p.matched
    && p.terms.observedAt == now
    && s' == WithPayment(s, p)
  }

  predicate ActivateStep(cfg: Config, s: State, now: int, c: Cert, tx: Key, s': State) {
    var pi := PaymentByTx(s.payments, tx);
    && pi < |s.payments|
    && !s.payments[pi].matched
    && var p := s.payments[pi].terms;
    && Activates(cfg, s, now, p)
    && var qi := QuoteByRef(s.quotes, p.referenceKey);
    && c == NewCert(cfg, now, s.quotes[qi].terms)
    && s' == WithCert(s, qi, pi, c)
  }

  predicate CheckpointStep(s: State, id: Key, cp: FeeCheckpoint, s': State) {
    var i := CertById(s.certs, id);
    && i < |s.certs|
    && s.certs[i].feeCheckpoint == None
    && s' == WithCheckpoint(s, i, cp)
  }

  predicate RefundStep(s: State, now: int, tx: Key, amount: int, reason: RefundReason, s': State) {
    var i := PaymentByTx(s.payments, tx);
    && RefundRefusal(s, now, tx) == None
    && amount == s.payments[i].terms.amount
    && reason == RefundReasonFor(s, s.payments[i].terms)
    && s' == WithRefund(s, i)
  }

  predicate SettleStep(cfg: Config, s: State, e: Event, s': State)
    requires e.CertificateSettled?
  {
    var i := CertById(s.certs, e.quoteId);
    var k := QuoteById(s.quotes, e.quoteId);
    && i < |s.certs|
    && s.certs[i].status == Active
    && e.ts >= s.certs[i].terms.expiry
    && k < |s.quotes|
    && e.payoff == Payoff(cfg, s.quotes[k].terms, s.certs[i].terms, e.reading.price)
    && 0 <= e.feeSplit
    && e.amount == SettlementAmount(e.payoff, e.feeSplit, s.certs[i].terms.capUp)
    && e.amount <= s.treasury
    && e.finalStatus == FinalStatus(e.payoff)
    && s' == WithSettlement(s, i, Settlement(e.reading.price, e.payoff, e.feeSplit, e.amount, e.ts), e.finalStatus)
  }

  // ---- Whole runs ----

  /**
   * A history is a log with the state right after each of its events: it opens, the clock never
   * goes back, and every later event is one commit of the ledger.
   */
  ghost predicate History(cfg: Config, states: seq<State>, log: seq<Event>) {
    && |states| == |log| > 0
    && log[0].LedgerOpened? && log[0].initialReserves >= 0
    && states[0] == OpenedState(log[0].initialReserves)
    && (forall k :: 0 < k < |log| ==> log[k - 1].ts <= log[k].ts)
    && (forall k :: 0 < k < |log| ==> Transition(cfg, states[k - 1], log[k], states[k]))
  }

  lemma HistoryPrefix(cfg: Config, states: seq<State>, log: seq<Event>, n: nat)
    requires History(cfg, states, log) && 0 < n <= |log|
    ensures History(cfg, states[..n], log[..n])
  {
  }

  lemma HistoryExtends(cfg: Config, states: seq<State>, log: seq<Event>, e: Event, s: State)
    requires History(cfg, states, log)
    requires log[|log| - 1].ts <= e.ts
    requires Transition(cfg, states[|states| - 1], e, s)
    ensures History(cfg, states + [s], log + [e])
  {
  }
}
