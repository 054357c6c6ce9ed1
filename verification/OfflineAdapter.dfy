/** The offline adapter as it runs: collections updated in place, journals pushed line by line, offers rejected one by
    one. Each method is proved against the function of Offline that specifies it. */
module OfflineAdapter {
  import opened Options
  import opened Money
  import opened Schema
  import opened Transactions
  import opened Offline

  class PaymentLegacyAdapter {
    var jobs: map<JobId, Job>
    var offers: map<OfferId, Offer>
    var payments: map<PaymentId, OffPayment>
    // what the finds over the payments collection return: the payment of a job, and of a payer and key
    var byJob: map<JobId, PaymentId>
    var byKey: map<(UserId, Key), PaymentId>
    var refunds: map<RefundId, OffRefund>
    var settlements: map<PaymentId, OffSettlement>
    var lines: seq<OffLine>

    function State(): OffDb
      reads this
    {
      OffDb(jobs, offers, payments, byJob, byKey, refunds, settlements, lines)
    }

    constructor (jobs: map<JobId, Job>, offers: map<OfferId, Offer>)
      ensures State() == OffDb(jobs, offers, map[], map[], map[], map[], map[], [])
    {
      this.jobs, this.offers := jobs, offers;
      payments, byJob, byKey, refunds, settlements, lines := map[], map[], map[], map[], map[], [];
    }

    method PushJournal(p: PaymentId, journal: seq<Line>)
      modifies `lines
      ensures lines == old(lines) + Lines(p, journal)
    {
      for i := 0 to |journal|
        invariant lines == old(lines) + Lines(p, journal)[..i]
      {
        lines := lines + [OffLine(p, journal[i])];
      }
    }

    /** The chosen offer first; then a loop over all offers rejects the other pending ones of the job. */
    method SelectOffer(o: OfferId, j: JobId)
      requires o in offers && offers[o].status == OfferStatus.Pending
      modifies `offers
      ensures offers == ChooseOffer(old(offers), o, j)
    {
      offers := offers[o := offers[o].(status := OfferStatus.Accepted)];
      var rest := offers.Keys - {o};
      while rest != {}
        invariant rest <= offers.Keys - {o} && offers.Keys == old(offers.Keys)
        invariant forall x :: x in offers ==>
          offers[x] == if x in rest then old(offers)[x] else ChooseOffer(old(offers), o, j)[x]
        decreases rest
      {
        var other :| other in rest;
        rest := rest - {other};
        if offers[other].job == j && offers[other].status == OfferStatus.Pending {
          offers := offers[other := offers[other].(status := OfferStatus.Rejected)];
        }
      }
    }

    method Fund(c: Command, payee: UserId, fees: Fees)
      requires c.FundCmd? && c.job in jobs
               && (c.chosen.Some? ==> c.chosen.value in offers && offers[c.chosen.value].status == OfferStatus.Pending)
      modifies this
      ensures State() == OffInsert(old(State()), c, payee, fees)
    {
      payments := payments[c.payment := OffPayment(c.job, c.me, payee, c.amount, Held, c.key, fees, c.currency)];
      byJob := byJob[c.job := c.payment];
      if c.key != NoKey {
        byKey := byKey[(c.me, c.key) := c.payment];
      }
      PushJournal(c.payment, FundingLines(fees));
      if c.chosen.Some? {
        SelectOffer(c.chosen.value, c.job);
      }
      var job := jobs[c.job];
      jobs := jobs[c.job := job.(status := Funded, provider := if job.provider.Some? then job.provider
                                                               else Some(payee))];
    }

    /** refunds.find by payment and key. */
    method FindPriorRefund(p: PaymentId, key: Key) returns (prior: Option<RefundId>)
      ensures prior.Some? ==>
                prior.value in refunds && refunds[prior.value].payment == p && refunds[prior.value].key == key
      ensures prior.None? ==> forall r :: r in refunds ==> !(refunds[r].payment == p && refunds[r].key == key)
    {
      var rest := refunds.Keys;
      while rest != {}
        invariant rest <= refunds.Keys
        invariant forall r :: r in refunds && r !in rest ==> !(refunds[r].payment == p && refunds[r].key == key)
        decreases rest
      {
        var r :| r in rest;
        if refunds[r].payment == p && refunds[r].key == key {
          return Some(r);
        }
        rest := rest - {r};
      }
      return None;
    }

    /** Refuses a payment that is not held, answers a key that was used for it, and otherwise refunds at once. */
    method RefundPayment(p: PaymentId, r: RefundId, key: Key) returns (reply: Reply)
      requires p in payments
      modifies this
      ensures old(payments)[p].status != Held ==> reply == Throw(InvalidPaymentState)
      ensures old(payments)[p].status == Held ==> reply == if KeyUsed(old(State()), p, key) then Replayed else Committed
      ensures State() == if reply == Committed then OffRefundPayment(old(State()), p, r, key) else old(State())
    {
      var pay := payments[p];
      if pay.status != Held {
        return Throw(InvalidPaymentState);
      }
      if key != NoKey {
        var prior := FindPriorRefund(p, key);
        if prior.Some? {
          return Replayed;
        }
      }
      refunds := refunds[r := OffRefund(p, pay.amount, RefundStatus.Refunded, key)];
      payments := payments[p := pay.(status := PaymentStatus.Refunded)];
      if pay.job in jobs {
        var next := if jobs[pay.job].provider.Some? then Assigned else Published;
        jobs := jobs[pay.job := jobs[pay.job].(status := next)];
      }
      PushJournal(p, RefundLines(pay.fees));
      return Committed;
    }

    method ReleasePayment(p: PaymentId)
      requires p in payments
      modifies this
      ensures State() == OffReleasePayment(old(State()), p)
    {
      var pay := payments[p];
      payments := payments[p := pay.(status := Released)];
      if pay.job in jobs {
        jobs := jobs[pay.job := jobs[pay.job].(status := Settled)];
      }
      PushJournal(p, ReleaseLines(pay.fees));
      PushJournal(p, PayoutLines(pay.fees));
      settlements := settlements[p := OffSettlement(pay.fees.payout, pay.currency)];
    }
  }
}
