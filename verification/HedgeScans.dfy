/** The read-only scans that the ledger's guards run over its Maps. */
module HedgeScans {
  import opened Outcomes
  import opened HedgeTypes
  import opened HedgeInvariants
  import opened HedgeTransitions

  method FindLiveQuote(qs: seq<Quote>, now: int, mint: Key) returns (found: bool)
    ensures found <==> HasLiveQuote(qs, now, mint)
  {
    for i := 0 to |qs|
      invariant forall k :: 0 <= k < i ==> !LiveFor(qs[k], now, mint)
    {
      if qs[i].status == Open && qs[i].terms.position.mint == mint && now <= qs[i].terms.validUntil {
        assert LiveFor(qs[i], now, mint);
        return true;
      }
    }
    return false;
  }

  method FindActiveCert(cs: seq<Cert>, mint: Key) returns (found: bool)
    ensures found <==> HasActiveCert(cs, mint)
  {
    for i := 0 to |cs|
      invariant forall k :: 0 <= k < i ==> !Protects(cs[k], mint)
    {
      if cs[i].status == Active && cs[i].terms.mint == mint {
        assert Protects(cs[i], mint);
        return true;
      }
    }
    return false;
  }

  method CountLiveQuotes(qs: seq<Quote>, now: int, owner: Key) returns (open: int)
    ensures open == LiveQuotesOf(qs, now, owner)
  {
    open := 0;
    for i := 0 to |qs|
      invariant open == LiveQuotesOf(qs[..i], now, owner)
    {
      assert qs[..i + 1][..i] == qs[..i];
      if qs[i].status == Open && now <= qs[i].terms.validUntil && qs[i].terms.position.owner == owner {
        open := open + 1;
      }
    }
    assert qs[..|qs|] == qs;
  }

  method SumBuyerExposure(cs: seq<Cert>, wallet: Key) returns (exposure: int)
    ensures exposure == BuyerExposure(cs, wallet)
  {
    exposure := 0;
    for i := 0 to |cs|
      invariant exposure == BuyerExposure(cs[..i], wallet)
    {
      assert cs[..i + 1][..i] == cs[..i];
      if cs[i].status == Active && cs[i].terms.buyer == wallet {
        exposure := exposure + cs[i].terms.capDown;
      }
    }
    assert cs[..|cs|] == cs;
  }

  method HasHeadroom(cfg: Config, s: State, capDown: nat) returns (ok: bool)
    ensures ok <==> Headroom(cfg, s, capDown)
  {
    var exposure := ComputeActiveCapDown(s);
    var net := ComputeNetReserves(s);
    ok := (exposure + capDown) * 10_000 <= net * cfg.uMaxBps;
  }

  /** The guards of issueQuote in the order of the code. */
  method RefuseQuote(cfg: Config, s: State, now: int, pos: Position, regimeUpdatedAt: int, priced: Option<Priced>)
    returns (refusal: Option<LedgerError>)
    ensures refusal == QuoteRefusal(cfg, s, now, pos, regimeUpdatedAt, priced)
  {
    if s.paused { return Some(QuotingPaused); }
    if now - regimeUpdatedAt > cfg.regimeMaxAgeSeconds { return Some(RegimeStale); }
    var quoted := FindLiveQuote(s.quotes, now, pos.mint);
    if quoted { return Some(OpenQuoteExists); }
    var protected := FindActiveCert(s.certs, pos.mint);
    if protected { return Some(AlreadyProtected); }
    if cfg.maxLifetimeQuotes > 0 && |s.quotes| >= cfg.maxLifetimeQuotes { return Some(QuoteCeiling); }
    if cfg.maxOpenQuotesPerOwner > 0 {
      var open := CountLiveQuotes(s.quotes, now, pos.owner);
      if open >= cfg.maxOpenQuotesPerOwner { return Some(TooManyOpenQuotes); }
    }
    if priced.None? { return Some(PricingRefused); }
    var roomy := HasHeadroom(cfg, s, priced.value.capDown);
    if !roomy { return Some(HeadroomExceeded); }
    return None;
  }

  /** The guards of tryActivate in the order of the code; each refusal leaves the payment unmatched. */
  method MayActivate(cfg: Config, s: State, now: int, p: PaymentTerms) returns (ok: bool)
    ensures ok <==> Activates(cfg, s, now, p)
  {
    if s.paused { return false; }
    var i := QuoteByRef(s.quotes, p.referenceKey);
    if i == |s.quotes| { return false; }
    var q := s.quotes[i];
    if q.status != Open { return false; }
    if now > q.terms.validUntil { return false; }
    if p.amount != q.terms.totalPayable { return false; }
    if CertById(s.certs, q.terms.quoteId) < |s.certs| { return false; }
    if p.sender != q.terms.position.owner { return false; }
    if cfg.perBuyerCapDownLimit > 0 {
      var exposure := SumBuyerExposure(s.certs, p.sender);
      if exposure + q.terms.capDown > cfg.perBuyerCapDownLimit { return false; }
    }
    ok := HasHeadroom(cfg, s, q.terms.capDown);
  }

  predicate IsDue(c: Cert, now: int) { c.status == Active && now >= c.terms.expiry }

  /** The due certificates, in the order of the Map. */
  function Due(cs: seq<Cert>, now: int): seq<Cert> {
    if cs == [] then []
    else Due(cs[..|cs| - 1], now) + (if IsDue(cs[|cs| - 1], now) then [cs[|cs| - 1]] else [])
  }

  lemma {:induction false} DueSound(cs: seq<Cert>, now: int, c: Cert)
    ensures c in Due(cs, now) <==> c in cs && IsDue(c, now)
  {
    if cs != [] {
      DueSound(cs[..|cs| - 1], now, c);
      assert cs == cs[..|cs| - 1] + [cs[|cs| - 1]];
    }
  }

  // ---- What lapsing does to every quote at once ----

  function LapsedIfStale(q: Quote, now: int): Quote {
    if q.status == Open && now > q.terms.validUntil then q.(status := Lapsed) else q
  }

  function LapseAll(qs: seq<Quote>, now: int): (r: seq<Quote>)
    ensures |r| == |qs| && forall i :: 0 <= i < |qs| ==> r[i] == LapsedIfStale(qs[i], now)
  {
    seq(|qs|, i requires 0 <= i < |qs| => LapsedIfStale(qs[i], now))
  }

  function LapseEvents(qs: seq<Quote>, now: int): seq<Event> {
    if qs == [] then []
    else
      var q := qs[|qs| - 1];
      LapseEvents(qs[..|qs| - 1], now)
        + (if q.status == Open && now > q.terms.validUntil then [QuoteLapsed(now, q.terms.quoteId)] else [])
  }
}
