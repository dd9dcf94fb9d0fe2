/** The records the ledger mutates in place, and the clock it reads. */
module HedgeRecords {
  import opened Outcomes
  import opened HedgeTypes

  /** A clock port: any time, as long as it never goes back. */
  class Clock {
    var last: int

    constructor (start: int)
      ensures last == start
    {
      last := start;
    }

    method Now() returns (t: int)
      modifies this
      ensures old(last) <= t == last
    {
      t :| last <= t;
      last := t;
    }
  }

  class QuoteRecord {
    const terms: QuoteTerms
    var status: QuoteStatus

    constructor (q: Quote)
      ensures Value() == q
    {
      terms, status := q.terms, q.status;
    }

    /** structuredClone. */
    function Value(): Quote reads this { Quote(terms, status) }
  }

  class PaymentRecord {
    const terms: PaymentTerms
    var matched: bool

    constructor (p: Payment)
      ensures Value() == p
    {
      terms, matched := p.terms, p.matched;
    }

    function Value(): Payment reads this { Payment(terms, matched) }
  }

  class CertificateRecord {
    const terms: CertTerms
    var status: CertStatus
    var feeCheckpoint: Option<FeeCheckpoint>
    var settlement: Option<Settlement>

    constructor (c: Cert)
      ensures Value() == c
    {
      terms, status, feeCheckpoint, settlement := c.terms, c.status, c.feeCheckpoint, c.settlement;
    }

    function Value(): Cert reads this { Cert(terms, status, feeCheckpoint, settlement) }
  }

  function QuoteValues(rs: seq<QuoteRecord>): (vs: seq<Quote>)
    reads rs
    ensures |vs| == |rs| && forall i :: 0 <= i < |rs| ==> vs[i] == rs[i].Value()
  {
    seq(|rs|, i requires 0 <= i < |rs| reads rs => rs[i].Value())
  }

  function PaymentValues(rs: seq<PaymentRecord>): (vs: seq<Payment>)
    reads rs
    ensures |vs| == |rs| && forall i :: 0 <= i < |rs| ==> vs[i] == rs[i].Value()
  {
    seq(|rs|, i requires 0 <= i < |rs| reads rs => rs[i].Value())
  }

  function CertValues(rs: seq<CertificateRecord>): (vs: seq<Cert>)
    reads rs
    ensures |vs| == |rs| && forall i :: 0 <= i < |rs| ==> vs[i] == rs[i].Value()
  {
    seq(|rs|, i requires 0 <= i < |rs| reads rs => rs[i].Value())
  }

  ghost predicate Distinct<T>(rs: seq<T>) {
    forall i, j :: 0 <= i < j < |rs| ==> rs[i] != rs[j]
  }
}
