/** An actual run of the pool in which a certificate is renewed and can never be settled. */
module PoolRenewal {
  import opened Outcomes
  import opened PoolRuns
  import opened PoolSafety
  import opened PositionValue
  import opened ProtectionPool
  import opened Reals

  const SAMPLE_CONFIG: PoolConfig := PoolConfig(10_000, 0, 0.0)
  const LP: Address := Address("lp")
  const RT: Address := Address("rt")
  const MINT: Address := Address("mint")

  /** Roots 1, 2 and 4: the range from 1 to 16 around an entry at 4. */
  function SampleOffer(now: int): Offer { Offer(Some(Template(1.0, 4.0, 10)), Fresh, now, 0) }

  function SampleCertificate(now: int): Certificate {
    Certificate(MINT, LP, 2.0, 1.0, 4.0, 1_250_000, 0, 0, 0.0, now + 10, Active, 0, 0)
  }

  function SampleBook(activeCap: int, certificates: seq<Certificate>, guarded: bool): Book {
    Book(10_000_000, 10_000_000, activeCap, map[RT := 10_000_000],
         [Position(MINT, LP, 2.0, 1.0, true, guarded)], certificates)
  }

  lemma SampleCap()
    ensures CapUsdc(2.0, 1.0, 1.0, 4.0) == 1_250_000
  {
    assert Recip(1.0) == 1.0 && Recip(4.0) == 0.25;
    assert UnitValue(2.0, 1.0, 4.0) == 2.0;
    assert UnitValue(1.0, 1.0, 4.0) == 0.75;
    assert NaturalCap(2.0, 1.0, 1.0, 4.0) == 1.25;
  }

  lemma SampleBuy(certificates: seq<Certificate>, now: int)
    ensures var offer := SampleOffer(now);
            && BuyRequest(LP, MINT, offer).Proper(SampleBook(0, certificates, false))
            && Buy(SAMPLE_CONFIG, SampleBook(0, certificates, false), LP, MINT, offer)
               == Ok(SampleBook(1_250_000, certificates + [SampleCertificate(now)], true))
  {
    hide CapUsdc;
    SampleCap();
    var b := SampleBook(0, certificates, false);
    assert PositionAt(b.positions, MINT) == 0;
    assert b.positions[0 := b.positions[0].(guarded := true)] == SampleBook(0, [], true).positions;
  }

  lemma SampleSettle()
    ensures Settle(SampleBook(1_250_000, [SampleCertificate(0)], true), MINT, 2.0, 0, 10)
         == Ok(SampleBook(0, [SampleCertificate(0).(status := Expired)], false))
  {
    var b, c := SampleBook(1_250_000, [SampleCertificate(0)], true), SampleCertificate(0);
    assert CertificateAt(b.certificates, MINT) == 0 && PositionAt(b.positions, MINT) == 0;
    assert Clamp(2.0, 1.0, 4.0) == 2.0;
    assert PayoutUsdc(c, 1.0, 2.0) == 0 && FeeIncome(c, 0) == 0;
    assert b.certificates[0 := Closed(c, 0, 0)] == [c.(status := Expired)];
    assert b.positions[0 := b.positions[0].(guarded := false)] == SampleBook(0, [], false).positions;
  }

  const FUNDED: Book := EMPTY.(reserves := 10_000_000, totalShares := 10_000_000, shares := map[RT := 10_000_000])

  function Closing(): Certificate { SampleCertificate(0).(status := Expired) }

  function SampleBooks(): seq<Book> {
    [EMPTY, FUNDED, SampleBook(0, [], false), SampleBook(1_250_000, [SampleCertificate(0)], true),
     SampleBook(0, [Closing()], false), SampleBook(1_250_000, [Closing(), SampleCertificate(10)], true)]
  }

  function SampleRequests(): seq<Request> {
    [DepositRequest(RT, 10_000_000), RegisterRequest(LP, MINT, 2.0, 1.0), BuyRequest(LP, MINT, SampleOffer(0)),
     SettleRequest(MINT, 2.0, 0, 10), BuyRequest(LP, MINT, SampleOffer(10))]
  }

  lemma Opening()
    ensures Takes(SAMPLE_CONFIG, EMPTY, DepositRequest(RT, 10_000_000), FUNDED)
    ensures Takes(SAMPLE_CONFIG, FUNDED, RegisterRequest(LP, MINT, 2.0, 1.0), SampleBook(0, [], false))
  {
    assert PositionAt(FUNDED.positions, MINT) == 0;
    assert [] + [Position(MINT, LP, 2.0, 1.0, true, false)] == SampleBook(0, [], false).positions;
  }

  lemma Buying(certificates: seq<Certificate>, now: int)
    ensures Takes(SAMPLE_CONFIG, SampleBook(0, certificates, false), BuyRequest(LP, MINT, SampleOffer(now)),
                  SampleBook(1_250_000, certificates + [SampleCertificate(now)], true))
  {
    hide Buy;
    SampleBuy(certificates, now);
  }

  lemma Settling()
    ensures Takes(SAMPLE_CONFIG, SampleBook(1_250_000, [SampleCertificate(0)], true), SettleRequest(MINT, 2.0, 0, 10),
                  SampleBook(0, [Closing()], false))
  {
    hide Settle;
    SampleSettle();
  }

  lemma SampleIsRun()
    ensures IsRun(SAMPLE_CONFIG, SampleBooks(), SampleRequests())
  {
    hide Takes;
    Opening();
    Buying([], 0);
    assert [] + [SampleCertificate(0)] == [SampleCertificate(0)];
    Settling();
    Buying([Closing()], 10);
    assert [Closing()] + [SampleCertificate(10)] == [Closing(), SampleCertificate(10)];
    var books, log := SampleBooks(), SampleRequests();
    forall k | 0 <= k < |log| ensures Takes(SAMPLE_CONFIG, books[k], log[k], books[k + 1]) {
      if k == 0 || k == 1 {
      } else if k == 2 || k == 3 {
      } else {
      }
    }
  }

  /**
   * An actual run from the empty pool: deposit, register, buy, settle at expiry, buy again. The second
   * certificate is a renewal, due at time 20, and settling its position is refused from then on.
   */
  lemma RenewalIsReachable()
    ensures SAMPLE_CONFIG.Sane() && IsRun(SAMPLE_CONFIG, SampleBooks(), SampleRequests())
    ensures var b := SampleBooks()[5];
            && Renewed(b, 1) && b.certificates[1] == SampleCertificate(10)
            && forall sT, fees, now :: now >= 20 ==> Settle(b, MINT, sT, fees, now) == Err(NotActive)
  {
    hide IsRun, Settle;
    SampleIsRun();
    var b := SampleBooks()[5];
    assert b.certificates[0].mint == b.certificates[1].mint;
    InvariantOfRun(SAMPLE_CONFIG, SampleBooks(), SampleRequests(), 5);
    forall sT, fees, now ensures Settle(b, MINT, sT, fees, now) == Err(NotActive) {
      RenewedRefused(SAMPLE_CONFIG, b, 1, sT, fees, now);
    }
  }
}
