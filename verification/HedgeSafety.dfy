/**
 * What every commit of the ledger keeps. The invariant is stronger than the runtime checks:
 * those follow from it, so no commit is ever refused.
 */
module HedgeSafety {
  import opened Outcomes
  import opened HedgeTypes
  import opened HedgeInvariants
  import opened HedgeTransitions
  import opened Sums

  // ---- The invariant, part by part ----

  /** The keys of the Maps are keys, and so are the reference keys of the quotes. */
  ghost predicate QuotesKeyed(qs: seq<Quote>) {
    forall i, j :: 0 <= i < j < |qs| ==>
      qs[i].terms.quoteId != qs[j].terms.quoteId && qs[i].terms.referenceKey != qs[j].terms.referenceKey
  }

  ghost predicate PaymentsKeyed(ps: seq<Payment>) {
    forall i, j :: 0 <= i < j < |ps| ==> ps[i].terms.txSignature != ps[j].terms.txSignature
  }

  ghost predicate CertsKeyed(cs: seq<Cert>) {
    forall i, j :: 0 <= i < j < |cs| ==> cs[i].terms.quoteId != cs[j].terms.quoteId
  }

  /** Exposure within the utilisation limit of the net reserves, which are never negative. */
  ghost predicate Utilised(cfg: Config, s: State) {
    && ActiveCapDown(s) * 10_000 <= NetReserves(s) * cfg.uMaxBps
    && NetReserves(s) >= 0
  }

  /** A certificate repeats the terms of its own consumed quote, which an exact payment backs. */
  ghost predicate CertOfQuote(s: State, c: CertTerms) {
    var i := QuoteById(s.quotes, c.quoteId);
    && i < |s.quotes|
    && s.quotes[i].status == Consumed
    && var q := s.quotes[i].terms;
    && c.mint == q.position.mint
    && c.buyer == q.position.owner
    && c.premium == q.premium && c.capDown == q.capDown && c.capUp == q.capUp
    && PaidExactly(s, q)
  }

  ghost predicate Linked(s: State) {
    forall i :: 0 <= i < |s.certs| ==> CertOfQuote(s, s.certs[i].terms)
  }

  ghost predicate PayablesAddUp(qs: seq<Quote>) {
    forall i :: 0 <= i < |qs| ==> qs[i].terms.totalPayable == qs[i].terms.premium + qs[i].terms.capUp
  }

  ghost predicate SettledProperly(cs: seq<Cert>) {
    forall i :: 0 <= i < |cs| ==>
      && SettlementBounded(cs[i])
      && (cs[i].status == Active <==> cs[i].settlement == None)
  }

  /** Per mint: at most one live quote, at most one active certificate, never both. */
  ghost predicate MintsExclusive(qs: seq<Quote>, cs: seq<Cert>, now: int) {
    && (forall i, j :: 0 <= i < j < |qs| && Live(qs[i], now) && Live(qs[j], now) ==>
          qs[i].terms.position.mint != qs[j].terms.position.mint)
    && (forall i, j :: 0 <= i < |qs| && 0 <= j < |cs| && Live(qs[i], now) && cs[j].status == Active ==>
          qs[i].terms.position.mint != cs[j].terms.mint)
    && (forall i, j :: 0 <= i < j < |cs| && cs[i].status == Active && cs[j].status == Active ==>
          cs[i].terms.mint != cs[j].terms.mint)
  }

  ghost predicate BuyersWithinLimit(cfg: Config, cs: seq<Cert>) {
    cfg.perBuyerCapDownLimit > 0 ==> forall w :: BuyerExposure(cs, w) <= cfg.perBuyerCapDownLimit
  }

  ghost predicate QuotesWithinLimits(cfg: Config, qs: seq<Quote>, now: int) {
    && (cfg.maxLifetimeQuotes > 0 ==> |qs| <= cfg.maxLifetimeQuotes)
    && (cfg.maxOpenQuotesPerOwner > 0 ==> forall w :: LiveQuotesOf(qs, now, w) <= cfg.maxOpenQuotesPerOwner)
  }

  ghost predicate Inv(cfg: Config, s: State, now: int) {
    && QuotesKeyed(s.quotes) && PaymentsKeyed(s.payments) && CertsKeyed(s.certs)
    && Utilised(cfg, s)
    && Conserved(s)
    && Linked(s)
    && PayablesAddUp(s.quotes)
    && SettledProperly(s.certs)
    && MintsExclusive(s.quotes, s.certs, now)
    && BuyersWithinLimit(cfg, s.certs)
    && QuotesWithinLimits(cfg, s.quotes, now)
  }

  // ---- The invariant implies the runtime checks ----

  lemma FloatNonNegative(s: State)
    ensures UnmatchedFloat(s) >= 0 && ActiveCollateral(s) >= 0 && ActiveCapDown(s) >= 0
  {
    SumNonNegative(s.payments, FloatOf);
    SumNonNegative(s.certs, CollateralOf);
    SumNonNegative(s.certs, CapDownOf);
  }

  lemma WorstIsCollateralPlusCapDown(s: State)
    ensures WorstObligations(s) == ActiveCapDown(s) + ActiveCollateral(s)
  {
    SumSplit(s.certs, CapDownOf, CollateralOf, WorstOf);
  }

  /** A share of the net reserves is at most the net reserves. */
  lemma UtilisedMeansCovered(cfg: Config, s: State)
    requires cfg.Sane() && Utilised(cfg, s)
    ensures ActiveCapDown(s) <= NetReserves(s)
  {
    var n, u := NetReserves(s), cfg.uMaxBps;
    assert n * u <= n * 10_000;
  }

  ghost predicate WithinLimit(exposure: nat, net: nat, u: nat) { exposure * 10_000 <= net * u }

  /**
   * The limit may be any number up to 10000 and no other: above it, exposure within the utilisation
   * test can exceed the reserves that back it, and I1b fails.
   */
  lemma LimitCoversExactly(u: nat)
    ensures (forall exposure: nat, net: nat :: WithinLimit(exposure, net, u) ==> exposure <= net) <==> u <= 10_000
  {
    if u <= 10_000 {
      forall exposure: nat, net: nat | WithinLimit(exposure, net, u)
        ensures exposure <= net
      {
        assert net * u <= net * 10_000;
      }
    } else {
      assert WithinLimit(u, 10_000, u);
    }
  }

  lemma InvImpliesChecks(cfg: Config, s: State, now: int)
    requires cfg.Sane() && Inv(cfg, s, now)
    ensures Checks(s)
  {
    FloatNonNegative(s);
    WorstIsCollateralPlusCapDown(s);
    UtilisedMeansCovered(cfg, s);
    forall i | 0 <= i < |s.certs| ensures CertBacked(s, s.certs[i]) {
      assert CertOfQuote(s, s.certs[i].terms);
    }
  }

  // ---- Time ----

  /** Time alone only takes quotes out of the live set. */
  lemma TimePasses(cfg: Config, s: State, now: int, later: int)
    requires Inv(cfg, s, now) && now <= later
    ensures Inv(cfg, s, later)
  {
    forall w ensures LiveQuotesOf(s.quotes, later, w) <= LiveQuotesOf(s.quotes, now, w) {
      LiveShrinks(s.quotes, now, later, w);
    }
  }

  lemma {:induction false} LiveShrinks(qs: seq<Quote>, now: int, later: int, w: Key)
    requires now <= later
    ensures Sum(qs, LiveOf(later, w)) <= Sum(qs, LiveOf(now, w))
  {
    if qs != [] {
      LiveShrinks(qs[..|qs| - 1], now, later, w);
    }
  }

  // ---- Links survive every change of status ----

  /** Records keep their terms, consumed quotes and matched payments stay so, others may be added. */
  ghost predicate Grows(s: State, s': State) {
    && |s.quotes| <= |s'.quotes| && |s.payments| <= |s'.payments|
    && (forall k :: 0 <= k < |s.quotes| ==>
          && s'.quotes[k].terms == s.quotes[k].terms
          && (s.quotes[k].status == Consumed ==> s'.quotes[k].status == Consumed))
    && (forall k :: 0 <= k < |s.payments| ==>
          && s'.payments[k].terms == s.payments[k].terms
          && (s.payments[k].matched ==> s'.payments[k].matched))
  }

  lemma SameIndex(qs: seq<Quote>, qs': seq<Quote>, id: Key)
    requires |qs| <= |qs'| && forall k :: 0 <= k < |qs| ==> qs'[k].terms == qs[k].terms
    requires QuoteById(qs, id) < |qs|
    ensures QuoteById(qs', id) == QuoteById(qs, id)
  {
    var a, b := QuoteById(qs, id), QuoteById(qs', id);
    assert qs'[a].terms == qs[a].terms;
    assert forall k :: 0 <= k < a ==> qs'[k].terms == qs[k].terms;
  }

  lemma CertOfQuoteGrows(s: State, s': State, c: CertTerms)
    requires Grows(s, s') && CertOfQuote(s, c)
    ensures CertOfQuote(s', c)
  {
    SameIndex(s.quotes, s'.quotes, c.quoteId);
    var q := s.quotes[QuoteById(s.quotes, c.quoteId)].terms;
    var k :| 0 <= k < |s.payments| && PaysFor(s.payments[k], q);
    assert PaysFor(s'.payments[k], q);
  }

  lemma LinksGrow(s: State, s': State)
    requires Grows(s, s') && Linked(s)
    requires |s'.certs| == |s.certs| && forall k :: 0 <= k < |s.certs| ==> s'.certs[k].terms == s.certs[k].terms
    ensures Linked(s')
  {
    forall i | 0 <= i < |s'.certs| ensures CertOfQuote(s', s'.certs[i].terms) {
      assert CertOfQuote(s, s.certs[i].terms);
      CertOfQuoteGrows(s, s', s.certs[i].terms);
    }
  }

  // ---- Keys and mints ----

  lemma AppendQuoteKeepsMints(qs: seq<Quote>, cs: seq<Cert>, now: int, q: Quote)
    requires MintsExclusive(qs, cs, now)
    requires !HasLiveQuote(qs, now, q.terms.position.mint) && !HasActiveCert(cs, q.terms.position.mint)
    ensures MintsExclusive(qs + [q], cs, now)
  {
    var qs', m := qs + [q], q.terms.position.mint;
    forall i | 0 <= i < |qs| && Live(qs'[i], now) ensures qs'[i].terms.position.mint != m {
      assert !LiveFor(qs[i], now, m);
    }
    forall j | 0 <= j < |cs| && cs[j].status == Active ensures cs[j].terms.mint != m {
      assert !Protects(cs[j], m);
    }
  }

  lemma AppendQuoteKeepsKeys(qs: seq<Quote>, q: Quote)
    requires QuotesKeyed(qs)
    requires QuoteById(qs, q.terms.quoteId) == |qs| && QuoteByRef(qs, q.terms.referenceKey) == |qs|
    ensures QuotesKeyed(qs + [q])
  {
  }

  /** Closing quote i leaves the keys, the mints and the limits as they were. */
  lemma CloseQuoteKeeps(cfg: Config, qs: seq<Quote>, cs: seq<Cert>, now: int, i: nat, st: QuoteStatus)
    requires i < |qs| && st != Open
    requires QuotesKeyed(qs) && MintsExclusive(qs, cs, now) && QuotesWithinLimits(cfg, qs, now) && PayablesAddUp(qs)
    ensures var qs' := qs[i := qs[i].(status := st)];
      QuotesKeyed(qs') && MintsExclusive(qs', cs, now) && QuotesWithinLimits(cfg, qs', now) && PayablesAddUp(qs')
  {
    var qs' := qs[i := qs[i].(status := st)];
    assert forall k :: 0 <= k < |qs| ==> qs'[k].terms == qs[k].terms && (Live(qs'[k], now) ==> Live(qs[k], now));
    forall w ensures LiveQuotesOf(qs', now, w) <= LiveQuotesOf(qs, now, w) {
      SumUpdate(qs, i, qs[i].(status := st), LiveOf(now, w));
    }
  }

  // ---- One lemma per event ----

  lemma IssueKeeps(cfg: Config, s: State, now: int, q: Quote, s': State)
    requires Inv(cfg, s, now) && IssueStep(cfg, s, now, q, s')
    ensures Inv(cfg, s', now)
  {
    hide QuoteById, QuoteByRef, QuotesKeyed, MintsExclusive, Linked, CertsKeyed, PaymentsKeyed;
    AppendQuoteKeepsKeys(s.quotes, q);
    AppendQuoteKeepsMints(s.quotes, s.certs, now, q);
    LinksGrow(s, s');
    forall w ensures LiveQuotesOf(s'.quotes, now, w) == LiveQuotesOf(s.quotes, now, w) + LiveOf(now, w)(q) {
      SumAppend(s.quotes, q, LiveOf(now, w));
    }
  }

  lemma LapseKeeps(cfg: Config, s: State, now: int, id: Key, s': State)
    requires Inv(cfg, s, now) && LapseStep(s, now, id, s')
    ensures Inv(cfg, s', now)
  {
    CloseQuoteKeeps(cfg, s.quotes, s.certs, now, QuoteById(s.quotes, id), Lapsed);
    LinksGrow(s, s');
  }

  lemma ObserveKeeps(cfg: Config, s: State, now: int, p: Payment, s': State)
    requires Inv(cfg, s, now) && ObserveStep(s, now, p, s')
    ensures Inv(cfg, s', now)
  {
    SumAppend(s.payments, p, FloatOf);
    LinksGrow(s, s');
  }

  lemma CheckpointMoney(cfg: Config, s: State, n: nat, cp: FeeCheckpoint)
    requires n < |s.certs| && Utilised(cfg, s) && BuyersWithinLimit(cfg, s.certs)
    ensures Utilised(cfg, WithCheckpoint(s, n, cp))
    ensures BuyersWithinLimit(cfg, WithCheckpoint(s, n, cp).certs)
  {
    var c := s.certs[n].(feeCheckpoint := Some(cp));
    SumUpdate(s.certs, n, c, CapDownOf);
    SumUpdate(s.certs, n, c, CollateralOf);
    var cs' := WithCheckpoint(s, n, cp).certs;
    assert cs' == s.certs[n := c];
    forall w ensures BuyerExposure(cs', w) == BuyerExposure(s.certs, w) {
      SumUpdate(s.certs, n, c, ExposureOf(w));
    }
  }

  lemma CheckpointKeeps(cfg: Config, s: State, now: int, id: Key, cp: FeeCheckpoint, s': State)
    requires Inv(cfg, s, now) && CheckpointStep(s, id, cp, s')
    ensures Inv(cfg, s', now)
  {
    hide CertById, Utilised, Linked, MintsExclusive, BuyersWithinLimit, QuotesWithinLimits, CertsKeyed;
    var n := CertById(s.certs, id);
    var c := s.certs[n].(feeCheckpoint := Some(cp));
    CheckpointMoney(cfg, s, n, cp);
    LinksGrow(s, s');
    RewriteCertKeeps(s.quotes, s.certs, now, n, c);
  }

  /** A certificate that keeps its terms and is not revived leaves keys and mints as they were. */
  lemma RewriteCertKeeps(qs: seq<Quote>, cs: seq<Cert>, now: int, n: nat, c: Cert)
    requires n < |cs| && c.terms == cs[n].terms && (c.status == Active ==> cs[n].status == Active)
    requires CertsKeyed(cs) && MintsExclusive(qs, cs, now)
    ensures CertsKeyed(cs[n := c]) && MintsExclusive(qs, cs[n := c], now)
  {
    var cs' := cs[n := c];
    assert forall k :: 0 <= k < |cs| ==> cs'[k].terms == cs[k].terms && (cs'[k].status == Active ==> cs[k].status == Active);
  }

  lemma RefundKeeps(cfg: Config, s: State, now: int, tx: Key, amount: int, reason: RefundReason, s': State)
    requires Inv(cfg, s, now) && RefundStep(s, now, tx, amount, reason, s')
    ensures Inv(cfg, s', now)
  {
    hide PaymentByTx, QuoteByRef, QuotesKeyed, MintsExclusive, Linked, CertsKeyed, BuyersWithinLimit, QuotesWithinLimits;
    var n := PaymentByTx(s.payments, tx);
    SumUpdate(s.payments, n, s.payments[n].(matched := true), FloatOf);
    LinksGrow(s, s');
  }

  /** Activation moves collateral out of the float and adds the premium to the net reserves. */
  lemma ActivateMoney(cfg: Config, s: State, now: int, c: Cert, tx: Key, s': State)
    requires Inv(cfg, s, now) && ActivateStep(cfg, s, now, c, tx, s')
    ensures NetReserves(s') == NetReserves(s) + c.terms.premium
    ensures Utilised(cfg, s')
    ensures BuyersWithinLimit(cfg, s'.certs)
  {
    hide PaymentByTx, QuoteByRef, QuoteById, CertById, MintsExclusive, Linked, QuotesKeyed, PaymentsKeyed, CertsKeyed,
         QuotesWithinLimits, SettledProperly;
    var pi := PaymentByTx(s.payments, tx);
    var qi := QuoteByRef(s.quotes, s.payments[pi].terms.referenceKey);
    assert s.quotes[qi].terms.totalPayable == s.quotes[qi].terms.premium + s.quotes[qi].terms.capUp;
    SumUpdate(s.payments, pi, s.payments[pi].(matched := true), FloatOf);
    SumAppend(s.certs, c, CapDownOf);
    SumAppend(s.certs, c, CollateralOf);
    MoreReserves(NetReserves(s), c.terms.premium, cfg.uMaxBps);
    forall w ensures BuyerExposure(s'.certs, w) == BuyerExposure(s.certs, w) + ExposureOf(w)(c) {
      SumAppend(s.certs, c, ExposureOf(w));
    }
  }

  lemma MoreReserves(n: int, premium: nat, u: nat)
    ensures n * u <= (n + premium) * u
  {
  }

  lemma OldCertsLinked(s: State, s': State)
    requires Grows(s, s') && Linked(s)
    ensures forall i :: 0 <= i < |s.certs| ==> CertOfQuote(s', s.certs[i].terms)
  {
    hide Grows, CertOfQuote;
    forall i | 0 <= i < |s.certs| ensures CertOfQuote(s', s.certs[i].terms) {
      CertOfQuoteGrows(s, s', s.certs[i].terms);
    }
  }

  lemma NewCertLinked(cfg: Config, s: State, now: int, c: Cert, tx: Key, s': State)
    requires QuotesKeyed(s.quotes) && PaymentsKeyed(s.payments) && PayablesAddUp(s.quotes)
    requires ActivateStep(cfg, s, now, c, tx, s')
    ensures CertOfQuote(s', c.terms)
  {
    hide QuoteById, QuoteByRef, PaymentByTx;
    var pi := PaymentByTx(s.payments, tx);
    var qi := QuoteByRef(s.quotes, s.payments[pi].terms.referenceKey);
    var q := s.quotes[qi].terms;
    assert q.totalPayable == q.premium + q.capUp;
    assert QuoteById(s.quotes, q.quoteId) == qi;
    SameIndex(s.quotes, s'.quotes, q.quoteId);
    assert PaysFor(s'.payments[pi], q);
  }

  lemma ActivateLinks(cfg: Config, s: State, now: int, c: Cert, tx: Key, s': State)
    requires Inv(cfg, s, now) && ActivateStep(cfg, s, now, c, tx, s')
    ensures CertsKeyed(s'.certs) && Linked(s')
  {
    hide QuoteById, QuoteByRef, PaymentByTx, CertOfQuote, Utilised, Conserved, MintsExclusive, BuyersWithinLimit,
         QuotesWithinLimits, SettledProperly;
    NewCertLinked(cfg, s, now, c, tx, s');
    OldCertsLinked(s, s');
  }

  /** The activated quote was the only live claim on its mint, and it is consumed with it. */
  lemma ActivateMints(s: State, now: int, qi: nat, c: Cert, qs': seq<Quote>)
    requires qi < |s.quotes| && Live(s.quotes[qi], now) && MintsExclusive(s.quotes, s.certs, now)
    requires c.terms.mint == s.quotes[qi].terms.position.mint
    requires qs' == s.quotes[qi := s.quotes[qi].(status := Consumed)]
    ensures MintsExclusive(qs', s.certs + [c], now)
  {
    var cs' := s.certs + [c];
    assert forall k :: 0 <= k < |qs'| && Live(qs'[k], now) ==> k != qi && qs'[k] == s.quotes[k];
    forall i | 0 <= i < |qs'| && Live(qs'[i], now)
      ensures qs'[i].terms.position.mint != c.terms.mint
    {
      assert Live(s.quotes[i], now) && Live(s.quotes[qi], now);
      if i < qi {
        assert s.quotes[i].terms.position.mint != s.quotes[qi].terms.position.mint;
      } else {
        assert s.quotes[qi].terms.position.mint != s.quotes[i].terms.position.mint;
      }
    }
  }

  lemma ActivateKeeps(cfg: Config, s: State, now: int, c: Cert, tx: Key, s': State)
    requires Inv(cfg, s, now) && ActivateStep(cfg, s, now, c, tx, s')
    ensures Inv(cfg, s', now)
  {
    var qi := QuoteByRef(s.quotes, s.payments[PaymentByTx(s.payments, tx)].terms.referenceKey);
    ActivateMoney(cfg, s, now, c, tx, s');
    ActivateLinks(cfg, s, now, c, tx, s');
    ActivateMints(s, now, qi, c, s'.quotes);
    CloseQuoteKeeps(cfg, s.quotes, s.certs, now, qi, Consumed);
  }

  /** A settlement lowers exposure and net reserves by at most the same amount. */
  lemma SettleMoney(cfg: Config, s: State, now: int, e: Event, s': State)
    requires cfg.Sane() && e.CertificateSettled? && e.ts == now
    requires Inv(cfg, s, now) && SettleStep(cfg, s, e, s')
    ensures Utilised(cfg, s')
    ensures BuyersWithinLimit(cfg, s'.certs)
  {
    hide QuoteById, CertById, MintsExclusive, Linked, QuotesKeyed, PaymentsKeyed, CertsKeyed, QuotesWithinLimits;
    var n := CertById(s.certs, e.quoteId);
    var c, c' := s.certs[n], s'.certs[n];
    SumUpdate(s.certs, n, c', CapDownOf);
    SumUpdate(s.certs, n, c', CollateralOf);
    UtilisedMeansCovered(cfg, s);
    SumNonNegative(s'.certs, CapDownOf);
    var cap := c.terms.capDown;
    assert NetReserves(s') >= NetReserves(s) - cap;
    assert ActiveCapDown(s') == ActiveCapDown(s) - cap;
    LessExposureLessReserves(ActiveCapDown(s), NetReserves(s), cap, NetReserves(s'), cfg.uMaxBps);
    forall w ensures BuyerExposure(s'.certs, w) <= BuyerExposure(s.certs, w) {
      SumUpdate(s.certs, n, c', ExposureOf(w));
    }
  }

  /** The utilisation bound survives taking the same amount off both sides. */
  lemma LessExposureLessReserves(exposure: int, net: int, cap: nat, net': int, u: nat)
    requires exposure * 10_000 <= net * u && u <= 10_000 && net' >= net - cap
    ensures (exposure - cap) * 10_000 <= net' * u
  {
    assert cap * u <= cap * 10_000;
    assert (net - cap) * u == net * u - cap * u;
    assert (net - cap) * u <= net' * u;
  }

  lemma SettleKeeps(cfg: Config, s: State, now: int, e: Event, s': State)
    requires cfg.Sane() && e.CertificateSettled? && e.ts == now
    requires Inv(cfg, s, now) && SettleStep(cfg, s, e, s')
    ensures Inv(cfg, s', now)
  {
    hide CertById, QuoteById, Utilised, MintsExclusive, BuyersWithinLimit, QuotesWithinLimits, CertsKeyed, Linked;
    var n := CertById(s.certs, e.quoteId);
    SettleMoney(cfg, s, now, e, s');
    LinksGrow(s, s');
    RewriteCertKeeps(s.quotes, s.certs, now, n, s'.certs[n]);
  }

  lemma PauseKeeps(cfg: Config, s: State, now: int, b: bool)
    requires Inv(cfg, s, now)
    ensures Inv(cfg, s.(paused := b), now)
  {
    LinksGrow(s, s.(paused := b));
  }

  /** Every commit keeps the invariant, at any later time. */
  lemma TransitionKeeps(cfg: Config, s: State, before: int, e: Event, s': State)
    requires cfg.Sane() && Inv(cfg, s, before) && before <= e.ts && Transition(cfg, s, e, s')
    ensures Inv(cfg, s', e.ts)
  {
    TimePasses(cfg, s, before, e.ts);
    match e
    case LedgerOpened(_, _) =>
    case QuoteIssued(ts, q) => IssueKeeps(cfg, s, ts, q, s');
    case QuoteLapsed(ts, id) => LapseKeeps(cfg, s, ts, id, s');
    case PaymentObserved(ts, p) => ObserveKeeps(cfg, s, ts, p, s');
    case CertificateActivated(ts, c, tx) => ActivateKeeps(cfg, s, ts, c, tx, s');
    case FeeCheckpointRecorded(ts, id, cp) => CheckpointKeeps(cfg, s, ts, id, cp, s');
    case PaymentRefunded(ts, tx, amount, reason) => RefundKeeps(cfg, s, ts, tx, amount, reason, s');
    case CertificateSettled(ts, _, _, _, _, _, _) => SettleKeeps(cfg, s, ts, e, s');
    case PausedSet(ts, b) => PauseKeeps(cfg, s, ts, b);
  }
}
