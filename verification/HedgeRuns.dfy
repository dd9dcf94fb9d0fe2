/** Safety and liveness over whole runs of the certificate ledger. */
module HedgeRuns {
  import opened Outcomes
  import opened HedgeTypes
  import opened HedgeInvariants
  import opened HedgeTransitions
  import opened HedgeSafety
  import opened Sums

  lemma OpenedStateInv(cfg: Config, reserves: nat, now: int)
    ensures Inv(cfg, OpenedState(reserves), now)
  {
  }

  /** The invariant holds after every event of every history. */
  lemma {:induction false} InvariantOfRun(cfg: Config, states: seq<State>, log: seq<Event>)
    requires cfg.Sane() && History(cfg, states, log)
    ensures forall k :: 0 <= k < |log| ==> Inv(cfg, states[k], log[k].ts)
  {
    var n := |log| - 1;
    if n == 0 {
      OpenedStateInv(cfg, log[0].initialReserves, log[0].ts);
    } else {
      HistoryPrefix(cfg, states, log, n);
      InvariantOfRun(cfg, states[..n], log[..n]);
      assert Inv(cfg, states[n - 1], log[n - 1].ts) by {
        assert states[..n][n - 1] == states[n - 1] && log[..n][n - 1] == log[n - 1];
      }
      TransitionKeeps(cfg, states[n - 1], log[n - 1].ts, log[n], states[n]);
      forall k | 0 <= k < |log| ensures Inv(cfg, states[k], log[k].ts) {
        if k < n {
          assert states[..n][k] == states[k] && log[..n][k] == log[k];
        }
      }
    }
  }

  /**
   * Whatever the interleaving of quotes, payments, activations, refunds, settlements and pauses:
   * exposure never exceeds the utilisation limit of the net reserves, the treasury covers the float
   * and every worst case, and all the runtime checks pass, so commit never throws.
   */
  lemma EveryStateIsSolvent(cfg: Config, states: seq<State>, log: seq<Event>)
    requires cfg.Sane() && History(cfg, states, log)
    ensures forall k :: 0 <= k < |log| ==>
      && Checks(states[k])
      && ActiveCapDown(states[k]) * 10_000 <= NetReserves(states[k]) * cfg.uMaxBps
      && states[k].treasury >= UnmatchedFloat(states[k]) + WorstObligations(states[k])
  {
    InvariantOfRun(cfg, states, log);
    forall k | 0 <= k < |log| ensures Checks(states[k]) {
      InvImpliesChecks(cfg, states[k], log[k].ts);
    }
  }

  /**
   * At any moment after any event: one active certificate per position at most, and no position
   * with both an active certificate and a live quote, or with two live quotes.
   */
  lemma OneClaimPerMint(cfg: Config, states: seq<State>, log: seq<Event>, k: nat, now: int)
    requires cfg.Sane() && History(cfg, states, log) && k < |log| && log[k].ts <= now
    ensures MintsExclusive(states[k].quotes, states[k].certs, now)
  {
    InvariantOfRun(cfg, states, log);
    TimePasses(cfg, states[k], log[k].ts, now);
  }

  /** No wallet ever carries more active downside than the per-buyer limit. */
  lemma BuyersStayWithinLimit(cfg: Config, states: seq<State>, log: seq<Event>, k: nat, wallet: Key)
    requires cfg.Sane() && History(cfg, states, log) && k < |log| && cfg.perBuyerCapDownLimit > 0
    ensures Sum(states[k].certs, (c: Cert) => if c.status == Active && c.terms.buyer == wallet then c.terms.capDown else 0)
            <= cfg.perBuyerCapDownLimit
  {
    InvariantOfRun(cfg, states, log);
    assert BuyerExposure(states[k].certs, wallet) <= cfg.perBuyerCapDownLimit;
    SumSame(states[k].certs, ExposureOf(wallet),
            (c: Cert) => if c.status == Active && c.terms.buyer == wallet then c.terms.capDown else 0);
  }

  /** The griefing guards hold at every moment: live quotes per owner, and quotes ever issued. */
  lemma QuotesStayWithinLimits(cfg: Config, states: seq<State>, log: seq<Event>, k: nat, now: int, owner: Key)
    requires cfg.Sane() && History(cfg, states, log) && k < |log| && log[k].ts <= now
    ensures cfg.maxOpenQuotesPerOwner > 0 ==>
      |set n | 0 <= n < |states[k].quotes| && states[k].quotes[n].status == Open
               && now <= states[k].quotes[n].terms.validUntil && states[k].quotes[n].terms.position.owner == owner|
      <= cfg.maxOpenQuotesPerOwner
    ensures cfg.maxLifetimeQuotes > 0 ==> |states[k].quotes| <= cfg.maxLifetimeQuotes
  {
    InvariantOfRun(cfg, states, log);
    TimePasses(cfg, states[k], log[k].ts, now);
    OpenQuotesCounted(states[k].quotes, now, owner);
  }

  /** The owner's open quotes, counted one by one. */
  lemma OpenQuotesCounted(qs: seq<Quote>, now: int, owner: Key)
    ensures LiveQuotesOf(qs, now, owner)
         == |set n | 0 <= n < |qs| && qs[n].status == Open && now <= qs[n].terms.validUntil
                     && qs[n].terms.position.owner == owner|
  {
    var w := LiveOf(now, owner);
    SumIsCount(qs, w);
    var open := set n | 0 <= n < |qs| && qs[n].status == Open && now <= qs[n].terms.validUntil
                        && qs[n].terms.position.owner == owner;
    assert Ones(qs, w) == open;
  }

  // ---- No money is stuck ----

  lemma PayoffWithinCaps(cfg: Config, q: QuoteTerms, c: CertTerms, price: real)
    ensures -(c.capUp as int) <= Payoff(cfg, q, c, price) <= c.capDown
  {
  }

  lemma FeeSplitNonNegative(cfg: Config, fees: int)
    requires cfg.Sane() && fees >= 0
    ensures FeeSplit(cfg, fees) >= 0
  {
    assert cfg.feeSplitRate * fees as real >= 0.0;
  }

  /** The treasury covers what any active certificate can be owed. */
  lemma TreasuryCoversEachCert(cfg: Config, s: State, now: int, i: nat)
    requires cfg.Sane() && Inv(cfg, s, now) && i < |s.certs| && s.certs[i].status == Active
    ensures s.certs[i].terms.capDown + s.certs[i].terms.capUp <= s.treasury
  {
    InvImpliesChecks(cfg, s, now);
    FloatNonNegative(s);
    SumDominates(s.certs, i, WorstOf);
  }

  /**
   * A due active certificate settles at any price and any fee total, whether or not the ledger is
   * paused, so the guard on the treasury in settle is dead code.
   */
  lemma DueCertificateSettles(cfg: Config, s: State, before: int, now: int, i: nat, price: real, fees: nat)
    requires cfg.Sane() && Inv(cfg, s, before) && i < |s.certs|
    requires s.certs[i].status == Active && now >= s.certs[i].terms.expiry
    ensures SettleRefusal(cfg, s, now, s.certs[i].terms.quoteId, price, fees) == None
  {
    var c := s.certs[i].terms;
    assert CertOfQuote(s, c);
    assert CertById(s.certs, c.quoteId) == i;
    var q := s.quotes[QuoteById(s.quotes, c.quoteId)].terms;
    PayoffWithinCaps(cfg, q, c, price);
    FeeSplitNonNegative(cfg, fees);
    TreasuryCoversEachCert(cfg, s, before, i);
  }

  /** From every state of every run, at every later time. */
  lemma NoCertificateIsStuck(cfg: Config, states: seq<State>, log: seq<Event>, k: nat, i: nat,
                             now: int, price: real, fees: nat)
    requires cfg.Sane() && History(cfg, states, log) && k < |log| && i < |states[k].certs|
    requires states[k].certs[i].status == Active && now >= states[k].certs[i].terms.expiry
    ensures SettleRefusal(cfg, states[k], now, states[k].certs[i].terms.quoteId, price, fees) == None
  {
    InvariantOfRun(cfg, states, log);
    DueCertificateSettles(cfg, states[k], log[k].ts, now, i, price, fees);
  }

  /** An unmatched payment is refunded once the quote it references is past its validity. */
  lemma NoPaymentIsStuck(cfg: Config, states: seq<State>, log: seq<Event>, k: nat, i: nat, now: int)
    requires cfg.Sane() && History(cfg, states, log) && k < |log| && i < |states[k].payments|
    requires !states[k].payments[i].matched
    requires var s := states[k]; var q := QuoteByRef(s.quotes, s.payments[i].terms.referenceKey);
      q < |s.quotes| ==> now > s.quotes[q].terms.validUntil
    ensures RefundRefusal(states[k], now, states[k].payments[i].terms.txSignature) == None
    ensures PaymentByTx(states[k].payments, states[k].payments[i].terms.txSignature) == i
  {
    InvariantOfRun(cfg, states, log);
    assert Inv(cfg, states[k], log[k].ts);
  }

  /** A payment that may be refunded could not activate, and one that could activate is not refundable. */
  lemma RefundOrActivate(cfg: Config, s: State, now: int, p: PaymentTerms)
    ensures !(Refundable(s, now, p) && Activates(cfg, s, now, p))
  {
  }
}
