/** invariants.ts: the ledger's money totals and the runtime checks I1 to I4. */
module HedgeInvariants {
  import opened Outcomes
  import opened HedgeTypes
  import opened Sums

  // ---- What each record adds to a total ----

  function FloatOf(p: Payment): int { if p.matched then 0 else p.terms.amount }
  function CollateralOf(c: Cert): int { if c.status == Active then c.terms.capUp else 0 }
  function CapDownOf(c: Cert): int { if c.status == Active then c.terms.capDown else 0 }
  function WorstOf(c: Cert): int { if c.status == Active then c.terms.capDown + c.terms.capUp else 0 }

  function UnmatchedFloat(s: State): int { Sum(s.payments, FloatOf) }
  function ActiveCollateral(s: State): int { Sum(s.certs, CollateralOf) }
  function ActiveCapDown(s: State): int { Sum(s.certs, CapDownOf) }
  function WorstObligations(s: State): int { Sum(s.certs, WorstOf) }
  function NetReserves(s: State): int { s.treasury - UnmatchedFloat(s) - ActiveCollateral(s) }

  // ---- The checks, as the operator reads them ----

  predicate Solvent(s: State) {
    && s.treasury >= UnmatchedFloat(s) + ActiveCollateral(s)
    && s.treasury >= UnmatchedFloat(s) + WorstObligations(s)
  }

  predicate PaidExactly(s: State, q: QuoteTerms) {
    exists k :: 0 <= k < |s.payments| && PaysFor(s.payments[k], q)
  }

  predicate PaysFor(p: Payment, q: QuoteTerms) {
    p.terms.referenceKey == q.referenceKey && p.matched && p.terms.amount == q.premium + q.capUp
  }

  predicate CertBacked(s: State, c: Cert) {
    var i := QuoteById(s.quotes, c.terms.quoteId);
    i < |s.quotes| && s.quotes[i].status == Consumed && PaidExactly(s, s.quotes[i].terms)
  }

  predicate Conserved(s: State) {
    s.treasury == s.initialReserves + s.totalIn - s.totalSettled - s.totalRefunded
  }

  predicate SettlementBounded(c: Cert) {
    c.settlement.Some? ==>
      var x := c.settlement.value;
      && 0 <= x.amount <= c.terms.capDown + c.terms.capUp
      && -(c.terms.capUp as int) <= x.payoff <= c.terms.capDown
      && x.amount == Max(0, x.payoff - x.feeSplit + c.terms.capUp)
  }

  predicate Checks(s: State) {
    && Solvent(s)
    && (forall i :: 0 <= i < |s.certs| ==> CertBacked(s, s.certs[i]))
    && Conserved(s)
    && s.treasury >= 0
    && (forall i :: 0 <= i < |s.certs| ==> SettlementBounded(s.certs[i]))
  }

  /** I1 in numbers: the treasury covers unspent payments with all collateral, and with every worst case. */
  lemma SolventMeans(s: State)
    ensures Solvent(s) <==>
      var unspent := Sum(s.payments, (p: Payment) => if p.matched then 0 else p.terms.amount);
      && s.treasury >= unspent + Sum(s.certs, (c: Cert) => if c.status == Active then c.terms.capUp else 0)
      && s.treasury >= unspent + Sum(s.certs, (c: Cert) => if c.status == Active then c.terms.capDown + c.terms.capUp else 0)
  {
    SumSame(s.payments, FloatOf, (p: Payment) => if p.matched then 0 else p.terms.amount);
    SumSame(s.certs, CollateralOf, (c: Cert) => if c.status == Active then c.terms.capUp else 0);
    SumSame(s.certs, WorstOf, (c: Cert) => if c.status == Active then c.terms.capDown + c.terms.capUp else 0);
  }

  /** I2 in numbers: a consumed quote, and a spent payment under its reference of premium and collateral. */
  lemma BackedMeans(s: State, c: Cert)
    ensures CertBacked(s, c) <==>
      var n := QuoteById(s.quotes, c.terms.quoteId);
      && n < |s.quotes| && s.quotes[n].status == Consumed
      && exists k :: 0 <= k < |s.payments| && s.payments[k].matched
                     && s.payments[k].terms.referenceKey == s.quotes[n].terms.referenceKey
                     && s.payments[k].terms.amount == s.quotes[n].terms.premium + s.quotes[n].terms.capUp
  {
    var n := QuoteById(s.quotes, c.terms.quoteId);
    if n < |s.quotes| {
      if k :| 0 <= k < |s.payments| && s.payments[k].matched
              && s.payments[k].terms.referenceKey == s.quotes[n].terms.referenceKey
              && s.payments[k].terms.amount == s.quotes[n].terms.premium + s.quotes[n].terms.capUp {
        assert PaysFor(s.payments[k], s.quotes[n].terms);
      }
    }
  }

  function Max(a: int, b: int): int { if a >= b then a else b }
  function Min(a: int, b: int): int { if a <= b then a else b }

  // ---- The loops that compute them ----

  method ComputeUnmatchedFloat(s: State) returns (sum: int)
    ensures sum == UnmatchedFloat(s)
  {
    sum := 0;
    for i := 0 to |s.payments|
      invariant sum == Sum(s.payments[..i], FloatOf)
    {
      assert s.payments[..i + 1][..i] == s.payments[..i];
      if !s.payments[i].matched { sum := sum + s.payments[i].terms.amount; }
    }
    assert s.payments[..|s.payments|] == s.payments;
  }

  method ComputeActiveCollateral(s: State) returns (sum: int)
    ensures sum == ActiveCollateral(s)
  {
    sum := 0;
    for i := 0 to |s.certs|
      invariant sum == Sum(s.certs[..i], CollateralOf)
    {
      assert s.certs[..i + 1][..i] == s.certs[..i];
      if s.certs[i].status == Active { sum := sum + s.certs[i].terms.capUp; }
    }
    assert s.certs[..|s.certs|] == s.certs;
  }

  method ComputeActiveCapDown(s: State) returns (sum: int)
    ensures sum == ActiveCapDown(s)
  {
    sum := 0;
    for i := 0 to |s.certs|
      invariant sum == Sum(s.certs[..i], CapDownOf)
    {
      assert s.certs[..i + 1][..i] == s.certs[..i];
      if s.certs[i].status == Active { sum := sum + s.certs[i].terms.capDown; }
    }
    assert s.certs[..|s.certs|] == s.certs;
  }

  method ComputeWorstObligations(s: State) returns (sum: int)
    ensures sum == WorstObligations(s)
  {
    sum := 0;
    for i := 0 to |s.certs|
      invariant sum == Sum(s.certs[..i], WorstOf)
    {
      assert s.certs[..i + 1][..i] == s.certs[..i];
      if s.certs[i].status == Active { sum := sum + s.certs[i].terms.capDown + s.certs[i].terms.capUp; }
    }
    assert s.certs[..|s.certs|] == s.certs;
  }

  method ComputeNetReserves(s: State) returns (net: int)
    ensures net == NetReserves(s)
  {
    var float := ComputeUnmatchedFloat(s);
    var collateral := ComputeActiveCollateral(s);
    net := s.treasury - float - collateral;
  }

  datatype Failure =
    | I1a | I1b | I2NoQuote(id: Key) | I2QuoteStatus(id: Key) | I2NoPayment(id: Key)
    | I3 | I4Treasury | I4Amount(id: Key) | I4Payoff(id: Key) | I4Identity(id: Key)

  /** I2 for one certificate: the inner scan over the payments stops at the first match. */
  method CheckCert(s: State, c: Cert) returns (failures: seq<Failure>)
    ensures failures == [] <==> CertBacked(s, c)
  {
    var i := QuoteById(s.quotes, c.terms.quoteId);
    if i == |s.quotes| { return [I2NoQuote(c.terms.quoteId)]; }
    var q := s.quotes[i];
    failures := [];
    if q.status != Consumed { failures := failures + [I2QuoteStatus(c.terms.quoteId)]; }
    var matchedExact := false;
    var k := 0;
    while k < |s.payments| && !matchedExact
      invariant 0 <= k <= |s.payments|
      invariant matchedExact <==> exists j :: 0 <= j < k && PaysFor(s.payments[j], q.terms)
    {
      var p := s.payments[k];
      if p.terms.referenceKey == q.terms.referenceKey && p.matched
         && p.terms.amount == q.terms.premium + q.terms.capUp {
        assert PaysFor(s.payments[k], q.terms);
        matchedExact := true;
      }
      k := k + 1;
    }
    if !matchedExact { failures := failures + [I2NoPayment(c.terms.quoteId)]; }
  }

  /** I4 for one certificate. */
  method CheckSettlement(c: Cert) returns (failures: seq<Failure>)
    ensures failures == [] <==> SettlementBounded(c)
  {
    failures := [];
    if c.settlement.None? { return; }
    var x := c.settlement.value;
    if x.amount < 0 || x.amount > c.terms.capDown + c.terms.capUp {
      failures := failures + [I4Amount(c.terms.quoteId)];
    }
    if x.payoff < -(c.terms.capUp as int) || x.payoff > c.terms.capDown {
      failures := failures + [I4Payoff(c.terms.quoteId)];
    }
    if x.amount != Max(0, x.payoff - x.feeSplit + c.terms.capUp) {
      failures := failures + [I4Identity(c.terms.quoteId)];
    }
  }

  /** The report is empty exactly when I1 to I4 hold. */
  method CheckInvariants(s: State) returns (failures: seq<Failure>)
    ensures failures == [] <==> Checks(s)
  {
    failures := [];
    var float := ComputeUnmatchedFloat(s);
    var collateral := ComputeActiveCollateral(s);
    var worst := ComputeWorstObligations(s);
    if s.treasury < float + collateral { failures := failures + [I1a]; }
    if s.treasury < float + worst { failures := failures + [I1b]; }
    for i := 0 to |s.certs|
      invariant failures == [] <==>
        Solvent(s) && forall k :: 0 <= k < i ==> CertBacked(s, s.certs[k])
    {
      var more := CheckCert(s, s.certs[i]);
      failures := failures + more;
    }
    if s.treasury != s.initialReserves + s.totalIn - s.totalSettled - s.totalRefunded {
      failures := failures + [I3];
    }
    if s.treasury < 0 { failures := failures + [I4Treasury]; }
    ghost var soFar := failures == [];
    for i := 0 to |s.certs|
      invariant failures == [] <==> soFar && forall k :: 0 <= k < i ==> SettlementBounded(s.certs[k])
    {
      var more := CheckSettlement(s.certs[i]);
      failures := failures + more;
    }
  }
}
