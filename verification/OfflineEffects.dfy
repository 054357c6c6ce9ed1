/** What each command does in the offline form, in terms of the rows alone: exactly when it takes effect, and all it
    changes. By the simulation the SQL form with its worker does the same. */
module OfflineEffects {
  import opened Options
  import opened Money
  import opened Schema
  import opened Offline

  /** The job's payment has this status. */
  predicate PaymentIs(off: OffDb, j: JobId, status: PaymentStatus) {
    j in off.byJob && off.byJob[j] in off.payments && off.payments[off.byJob[j]].status == status
  }

  predicate JobIs(off: OffDb, j: JobId, status: JobStatus) { j in off.jobs && off.jobs[j].status == status }

  predicate IsOwner(off: OffDb, j: JobId, me: UserId) { j in off.jobs && off.jobs[j].owner == me }

  predicate IsProvider(off: OffDb, j: JobId, me: UserId) { j in off.jobs && off.jobs[j].provider == Some(me) }

  // ---------- funding ----------

  /** A pending offer of the job, and none of its pending offers asks for less. */
  predicate IsCheapest(off: OffDb, o: OfferId, j: JobId) {
    && o in off.offers && off.offers[o].job == j && off.offers[o].status == OfferStatus.Pending
    && !exists x :: x in off.offers && off.offers[x].job == j && off.offers[x].status == OfferStatus.Pending
                    && off.offers[x].price < off.offers[o].price
  }

  /** The owner of a published or assigned job without a payment, an amount in range, a key that is not used; and no
      chosen offer when the job has a provider, a cheapest one when it has none. */
  predicate MayFund(off: OffDb, c: Command)
    requires c.FundCmd?
  {
    && IsOwner(off, c.job, c.me) && (JobIs(off, c.job, Published) || JobIs(off, c.job, Assigned))
    && c.job !in off.byJob && 1 <= c.amount <= 100_000_000_000
    && (c.key == NoKey || (c.me, c.key) !in off.byKey)
    && if off.jobs[c.job].provider.Some? then c.chosen == None
       else c.chosen.Some? && IsCheapest(off, c.chosen.value, c.job)
  }

  /** The payment is held at once, by the job's provider or the chosen offer's, who becomes the job's. */
  predicate Funded(off: OffDb, next: OffDb, c: Command)
    requires c.FundCmd? && MayFund(off, c)
  {
    var job := off.jobs[c.job];
    var payee := if job.provider.Some? then job.provider.value else off.offers[c.chosen.value].provider;
    var fees := Breakdown(job.kind, c.amount);
    && next.payments == off.payments[c.payment := OffPayment(c.job, c.me, payee, c.amount, Held, c.key, fees,
                                                             c.currency)]
    && next.jobs == off.jobs[c.job := job.(status := JobStatus.Funded, provider := Some(payee))]
    && next.lines == off.lines + [OffLine(c.payment, Line(PlatformCash, fees.charge, 0)),
                                  OffLine(c.payment, Line(EscrowLiability, 0, fees.payout)),
                                  OffLine(c.payment, Line(PlatformFeeRevenue, 0, fees.platformFee))]
    && next.byJob == off.byJob[c.job := c.payment]
    && next.byKey == (if c.key == NoKey then off.byKey else off.byKey[(c.me, c.key) := c.payment])
    && next.offers.Keys == off.offers.Keys
    && (forall o :: o in off.offers ==>
         next.offers[o] == if c.chosen == Some(o) then off.offers[o].(status := OfferStatus.Accepted)
                           else if c.chosen.Some? && off.offers[o].job == c.job
                                   && off.offers[o].status == OfferStatus.Pending
                           then off.offers[o].(status := OfferStatus.Rejected)
                           else off.offers[o])
    && next.refunds == off.refunds && next.settlements == off.settlements
  }

  lemma CheapestIff(off: OffDb, o: OfferId, j: JobId)
    requires o in off.offers
    ensures CheapestPending(off.offers, j, o) <==> IsCheapest(off, o, j)
  {
  }

  lemma MayFundIff(off: OffDb, c: Command)
    requires c.FundCmd?
    ensures MayFund(off, c)
            <==> Payable(off.jobs, off.offers, c) && c.job !in off.byJob
                 && !(c.key != NoKey && (c.me, c.key) in off.byKey) && off.jobs[c.job].status in {Published, Assigned}
  {
    if c.chosen.Some? && c.chosen.value in off.offers {
      CheapestIff(off, c.chosen.value, c.job);
    }
  }

  lemma FundWrites(off: OffDb, c: Command)
    requires c.FundCmd? && MayFund(off, c) && Payable(off.jobs, off.offers, c)
    ensures Funded(off, OffInsert(off, c, Payee(off.jobs, off.offers, c), Breakdown(off.jobs[c.job].kind, c.amount)), c)
  {
  }

  /** A fund command takes effect exactly then, and does exactly that. */
  lemma FundCommand(off: OffDb, c: Command)
    requires c.FundCmd?
    ensures if MayFund(off, c) then Funded(off, OffStep(off, c), c) else OffStep(off, c) == off
  {
    MayFundIff(off, c);
    if MayFund(off, c) {
      FundWrites(off, c);
    }
  }

  // ---------- work on the job ----------

  /** The provider starts a funded job whose payment is held and delivers one in progress; the owner accepts one that is
      delivered or under review while its payment is held, which then waits for its release. */
  lemma WorkCommands(off: OffDb, j: JobId, me: UserId)
    ensures OffStep(off, StartCmd(j, me))
            == if IsProvider(off, j, me) && JobIs(off, j, JobStatus.Funded) && PaymentIs(off, j, Held)
               then off.(jobs := off.jobs[j := off.jobs[j].(status := InProgress)]) else off
    ensures OffStep(off, DeliverCmd(j, me))
            == if IsProvider(off, j, me) && JobIs(off, j, InProgress)
               then off.(jobs := off.jobs[j := off.jobs[j].(status := Delivered)]) else off
    ensures OffStep(off, AcceptCmd(j, me))
            == if IsOwner(off, j, me) && (JobIs(off, j, Delivered) || JobIs(off, j, UnderReview))
                  && PaymentIs(off, j, Held)
               then off.(jobs := off.jobs[j := off.jobs[j].(status := Completed)],
                         payments := off.payments[off.byJob[j] :=
                                                  off.payments[off.byJob[j]].(status := ReleasePending)])
               else off
  {
  }

  // ---------- endings ----------

  predicate RefundedBefore(off: OffDb, p: PaymentId, key: Key) {
    key != NoKey && exists r :: r in off.refunds && off.refunds[r].payment == p && off.refunds[r].key == key
  }

  /** The owner gets a held payment back, once per key: row, payment, job and one journal. */
  lemma RefundCommand(off: OffDb, j: JobId, me: UserId, r: RefundId, key: Key)
    requires j in off.byJob && off.byJob[j] in off.payments ==> off.payments[off.byJob[j]].job in off.jobs
    ensures var next := OffStep(off, RefundCmd(j, me, r, key));
            if IsOwner(off, j, me) && PaymentIs(off, j, Held) && !RefundedBefore(off, off.byJob[j], key)
            then
              var p := off.byJob[j];
              var pay := off.payments[p];
              var job := off.jobs[pay.job];
              && next.payments == off.payments[p := pay.(status := PaymentStatus.Refunded)]
              && next.jobs == off.jobs[pay.job := job.(status := if job.provider == None then Published else Assigned)]
              && next.refunds == off.refunds[r := OffRefund(p, pay.amount, RefundStatus.Refunded, key)]
              && next.lines == off.lines + [OffLine(p, Line(EscrowLiability, pay.fees.payout, 0)),
                                            OffLine(p, Line(PlatformFeeRevenue, pay.fees.platformFee, 0)),
                                            OffLine(p, Line(PlatformCash, 0, pay.fees.charge))]
              && next == off.(payments := next.payments, jobs := next.jobs, refunds := next.refunds,
                              lines := next.lines)
            else next == off
  {
  }

  /** The owner of a completed job releases a payment that waits for it or whose release failed: payment, job,
      settlement and two journals. */
  lemma ReleaseCommand(off: OffDb, j: JobId, me: UserId)
    requires j in off.byJob && off.byJob[j] in off.payments ==> off.payments[off.byJob[j]].job in off.jobs
    ensures var next := OffStep(off, ReleaseCmd(j, me));
            if IsOwner(off, j, me) && JobIs(off, j, Completed)
               && (PaymentIs(off, j, ReleasePending) || PaymentIs(off, j, ReleaseFailed))
            then
              var p := off.byJob[j];
              var pay := off.payments[p];
              && next.payments == off.payments[p := pay.(status := Released)]
              && next.jobs == off.jobs[pay.job := off.jobs[pay.job].(status := Settled)]
              && next.settlements == off.settlements[p := OffSettlement(pay.fees.payout, pay.currency)]
              && next.lines == off.lines + [OffLine(p, Line(EscrowLiability, pay.fees.payout, 0)),
                                            OffLine(p, Line(UserPayable, 0, pay.fees.payout)),
                                            OffLine(p, Line(UserPayable, pay.fees.payout, 0)),
                                            OffLine(p, Line(PlatformCash, 0, pay.fees.payout))]
              && next == off.(payments := next.payments, jobs := next.jobs, settlements := next.settlements,
                              lines := next.lines)
            else next == off
  {
  }
}
