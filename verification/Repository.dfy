/** The repository as it runs: tables updated row by row inside a transaction, journals inserted entry by entry, and a
    rollback to the tables as they were when anything throws. Every method is proved against the function of
    Transactions that specifies it. */
module Repository {
  import opened Options
  import opened Money
  import opened Schema
  import opened Transactions

  /** The row a webhook works on; any number when the query found none. */
  function RowOf(picked: Option<RefundId>): RefundId { if picked.Some? then picked.value else 0 }

  /** The record of a webhook changes nothing about how its payment can be moved. */
  lemma LoggedAnswers(db: Db, id: WebhookId, kind: WebhookType, p: PaymentId, ref: Ref, picked: Option<RefundId>)
    requires p in db.payments && (kind == PaymentRefunded && picked.Some? ==> picked.value in db.refunds)
    ensures MoveReply(Logged(db, id), kind, p, ref, picked) == MoveReply(db, kind, p, ref, picked)
    ensures forall r :: PendingRefund(Logged(db, id), p, r) <==> PendingRefund(db, p, r)
  {
  }

  class Repository {
    var jobs: map<JobId, Job>
    var offers: map<OfferId, Offer>
    var applications: map<ApplicationId, Application>
    var payments: map<PaymentId, Payment>
    var paymentByJob: map<JobId, PaymentId>
    var paymentByKey: map<(UserId, Key), PaymentId>
    var refunds: map<RefundId, RefundRow>
    var refundByKey: map<(PaymentId, Key), RefundId>
    var settlements: map<PaymentId, Settlement>
    var webhooks: set<WebhookId>
    var outbox: map<EventKey, Event>
    var ledger: seq<Entry>
    var nextId: nat

    function Tables(): Db
      reads this
    {
      Db(jobs, offers, applications, payments, paymentByJob, paymentByKey, refunds, refundByKey, settlements, webhooks,
         outbox, ledger, nextId)
    }

    constructor ()
      ensures Tables() == EMPTY
    {
      jobs, offers, applications, payments := map[], map[], map[], map[];
      paymentByJob, paymentByKey, refunds, refundByKey := map[], map[], map[], map[];
      settlements, webhooks, outbox, ledger, nextId := map[], {}, map[], [], 0;
    }

    /** ROLLBACK. */
    method Restore(before: Db)
      modifies this
      ensures Tables() == before
    {
      RestorePayments(before);
      jobs, offers, applications := before.jobs, before.offers, before.applications;
      settlements, webhooks, outbox, ledger, nextId :=
        before.settlements, before.webhooks, before.outbox, before.ledger, before.nextId;
    }

    method RestorePayments(before: Db)
      modifies `payments, `paymentByJob, `paymentByKey, `refunds, `refundByKey
      ensures payments == before.payments && paymentByJob == before.paymentByJob && paymentByKey == before.paymentByKey
      ensures refunds == before.refunds && refundByKey == before.refundByKey
    {
      payments, paymentByJob, paymentByKey := before.payments, before.paymentByJob, before.paymentByKey;
      refunds, refundByKey := before.refunds, before.refundByKey;
    }

    /** One journal, one INSERT per entry. The builder refuses an unbalanced journal, and the table refuses an entry
        that is not one-sided; until the loop ends the journal in the table is unbalanced. */
    method InsertJournal(reference: Reference, p: PaymentId, lines: seq<Line>) returns (ok: bool)
      modifies `ledger, `nextId
      ensures ok <==> Postable(lines)
      ensures ok ==> Tables() == Post(old(Tables()), reference, p, lines)
    {
      var balanced := AssertBalanced(lines);
      if !balanced {
        return false;
      }
      var journal := nextId;
      nextId := nextId + 1;
      for i := 0 to |lines|
        invariant nextId == old(nextId) + 1
        invariant ledger == old(ledger) + Rows(journal, reference, p, lines)[..i]
        invariant forall k :: 0 <= k < i ==> OneSided(lines[k])
      {
        if !OneSided(lines[i]) {
          return false;
        }
        ledger := ledger + [Entry(journal, reference, p, lines[i])];
      }
      return true;
    }

    // ---------- funding ----------

    method FundJobAtomic(j: JobId, payer: UserId, payee: UserId, offer: Option<OfferId>, amount: nat, id: PaymentId,
        key: Key, currency: Currency, now: int) returns (reply: Reply)
      modifies this
      ensures reply == FundReply(old(Tables()), j, payer, payee, offer, amount, id, key)
      ensures Tables() == FundJob(old(Tables()), j, payer, payee, offer, amount, id, key, currency, now).0
    {
      if j !in jobs {
        reply := Null;
      } else if jobs[j].owner != payer {
        reply := Throw(Forbidden);
      } else if jobs[j].status !in {Published, Assigned, Funded} {
        reply := Throw(InvalidState);
      } else {
        reply := FundLocked(j, payer, payee, offer, amount, id, key, currency, now);
      }
    }

    /** The job is the payer's and can be funded: look its payment up. */
    method FundLocked(j: JobId, payer: UserId, payee: UserId, offer: Option<OfferId>, amount: nat, id: PaymentId,
        key: Key, currency: Currency, now: int) returns (reply: Reply)
      requires j in jobs
      modifies this
      ensures reply == if HasPayment(old(Tables()), j)
                       then FundAgainReply(old(Tables()), old(payments[paymentByJob[j]]), key)
                       else FundFirstReply(old(Tables()), j, payer, payee, offer, amount, id, key)
      ensures reply != Created && reply != Retried ==> Tables() == old(Tables())
      ensures reply == Created ==>
        Tables() == InsertPayment(old(Tables()), NewPayment(old(jobs[j]), j, payer, payee, amount, id, key, currency),
                                  id, offer, now)
      ensures reply == Retried ==>
                HasPayment(old(Tables()), j) && Tables() == RetryHold(old(Tables()), j, payer, key, currency, now)
    {
      if j in paymentByJob && paymentByJob[j] in payments {
        reply := FundExisting(j, paymentByJob[j], payer, key, currency, now);
      } else {
        reply := FundNew(j, payer, payee, offer, amount, id, key, currency, now);
      }
    }

    /** The job has no payment yet. */
    method FundNew(j: JobId, payer: UserId, payee: UserId, offer: Option<OfferId>, amount: nat, id: PaymentId, key: Key,
        currency: Currency, now: int) returns (reply: Reply)
      requires j in jobs
      modifies this
      ensures reply == FundFirstReply(old(Tables()), j, payer, payee, offer, amount, id, key)
      ensures Tables() ==
              if reply != Created then old(Tables())
              else InsertPayment(old(Tables()), NewPayment(old(jobs[j]), j, payer, payee, amount, id, key, currency),
                                 id, offer, now)
    {
      if key != NoKey && (payer, key) in paymentByKey {
        var prior := paymentByKey[(payer, key)];
        if prior !in payments || payments[prior].job != j || payments[prior].amount != amount {
          return Throw(IdempotencyConflict);
        }
        return Replayed;
      }
      if offer.Some? && !Selectable(Tables(), offer.value, j, payee) {
        return Throw(InvalidOfferState);
      }
      var before := Tables();
      reply := InsertFirst(j, payer, payee, offer, amount, id, key, currency, now);
      if reply != Created {
        Restore(before);
      }
    }

    /** The job already has a payment. */
    method FundExisting(j: JobId, p: PaymentId, payer: UserId, key: Key, currency: Currency, now: int)
        returns (reply: Reply)
      requires j in jobs && HasPayment(Tables(), j) && paymentByJob[j] == p
      modifies `payments, `paymentByKey, `outbox
      ensures reply == FundAgainReply(old(Tables()), old(payments[p]), key)
      ensures Tables() == if reply == Retried then RetryHold(old(Tables()), j, payer, key, currency, now)
                          else old(Tables())
    {
      var existing := payments[p];
      if existing.key != NoKey && key != NoKey && existing.key != key {
        return Throw(PaymentAlreadyExists);
      }
      if existing.status != HoldFailed {
        return Replayed;
      }
      // a stored key stays, an empty one is filled in, under the unique index
      var newKey := if existing.key != NoKey then existing.key else key;
      if existing.key == NoKey && key != NoKey {
        if (existing.payer, key) in paymentByKey {
          return Throw(UniqueViolation);
        }
      }
      payments := payments[p := existing.(status := HoldPending, key := newKey)];
      if newKey != NoKey {
        paymentByKey := paymentByKey[(existing.payer, newKey) := p];
      }
      var k := EventKey(CreateHold, p);
      if k in outbox {
        outbox := outbox[k := outbox[k].(status := EventStatus.Pending, availableAt := now, lockedAt := None)];
      } else {
        outbox := outbox[k := NewEvent(RetryPayload(j, payer, p, existing, newKey, currency), now)];
      }
      return Retried;
    }

    /** Accept the chosen offer, then reject the other pending ones. */
    method SelectOffer(o: OfferId, j: JobId)
      requires o in offers
      modifies `offers
      ensures offers == ChooseOffer(old(offers), o, j)
    {
      offers := offers[o := offers[o].(status := OfferStatus.Accepted)];
      offers := map x | x in offers ::
        if offers[x].job == j && x != o
           && offers[x].status == OfferStatus.Pending then offers[x].(status := OfferStatus.Rejected) else offers[x];
    }

    /** Offers, payment, job, journal and event of a first funding, in this order; anything but Created leaves them half
        done. */
    method InsertFirst(j: JobId, payer: UserId, payee: UserId, offer: Option<OfferId>, amount: nat, id: PaymentId,
        key: Key, currency: Currency, now: int) returns (reply: Reply)
      requires j in jobs && (key != NoKey ==> (payer, key) !in paymentByKey)
      requires offer.Some? ==> Selectable(Tables(), offer.value, j, payee)
      modifies this
      ensures reply == FundFirstReply(old(Tables()), j, payer, payee, offer, amount, id, key)
      ensures reply == Created ==>
        var db := old(Tables());
        Tables() == InsertPayment(db, NewPayment(db.jobs[j], j, payer, payee, amount, id, key, currency), id, offer,
                                  now)
    {
      if offer.Some? {
        SelectOffer(offer.value, j);
      }
      if !ValidCents(amount) {
        return Throw(InvalidAmount);
      }
      reply := InsertAndPost(NewPayment(jobs[j], j, payer, payee, amount, id, key, currency), id, now);
    }

    /** The payment row under its unique indexes, then the rest. */
    method InsertAndPost(pay: Payment, id: PaymentId, now: int) returns (reply: Reply)
      requires pay.job in jobs
      modifies `payments, `paymentByJob, `paymentByKey, `jobs, `ledger, `nextId, `outbox
      ensures reply == (if id in old(payments)
                        || RefTaken(old(payments), Placeholder(id), id) then Throw(UniqueViolation)
                        else if !Postable(FundingLines(pay.fees)) then Throw(JournalRejected)
                        else if EventKey(CreateHold, id) in old(outbox) then Throw(UniqueViolation) else Created)
      ensures reply == Created ==> Tables() == InsertPayment(old(Tables()), pay, id, None, now)
    {
      if id in payments || RefTaken(payments, Placeholder(id), id) {
        return Throw(UniqueViolation);
      }
      InsertPaymentRow(pay, id);
      reply := PostFunding(pay, id, now);
    }

    /** The job row, the journal and the event of a payment just inserted. */
    method PostFunding(pay: Payment, id: PaymentId, now: int) returns (reply: Reply)
      requires pay.job in jobs
      modifies `jobs, `ledger, `nextId, `outbox
      ensures reply == (if !Postable(FundingLines(pay.fees)) then Throw(JournalRejected)
                        else if EventKey(CreateHold, id) in old(outbox) then Throw(UniqueViolation) else Created)
      ensures reply == Created ==> Tables() == FundingPosted(old(Tables()), pay, id, now)
    {
      var job := jobs[pay.job];
      jobs := jobs[pay.job := job.(status := Funded, provider := if job.provider.None? then Some(pay.payee)
                                                                 else job.provider)];
      var posted := InsertJournal(PaymentFund, id, FundingLines(pay.fees));
      if !posted {
        return Throw(JournalRejected);
      }
      if EventKey(CreateHold, id) in outbox {
        return Throw(UniqueViolation);
      }
      var payload :=
        HoldPayload(pay.job, pay.payer, id, pay.fees.charge, pay.fees.base, pay.currency,
                    if pay.key != NoKey then pay.key else PaymentKey(id));
      outbox := outbox[EventKey(CreateHold, id) := NewEvent(payload, now)];
      return Created;
    }

    method InsertPaymentRow(pay: Payment, id: PaymentId)
      modifies `payments, `paymentByJob, `paymentByKey
      ensures payments == old(payments)[id := pay] && paymentByJob == old(paymentByJob)[pay.job := id]
      ensures paymentByKey == if pay.key == NoKey then old(paymentByKey)
                              else old(paymentByKey)[(pay.payer, pay.key) := id]
    {
      payments := payments[id := pay];
      paymentByJob := paymentByJob[pay.job := id];
      if pay.key != NoKey {
        paymentByKey := paymentByKey[(pay.payer, pay.key) := id];
      }
    }

    // ---------- jobs and offers ----------

    method UpdateJobSimple(j: JobId, expected: set<JobStatus>, status: JobStatus) returns (reply: Reply)
      modifies `jobs
      ensures (Tables(), reply) == UpdateJob(old(Tables()), j, expected, status)
    {
      if j !in jobs {
        return Null;
      }
      if jobs[j].status !in expected {
        return Throw(InvalidState);
      }
      jobs := jobs[j := jobs[j].(status := status)];
      return Updated;
    }

    method TransitionJobWithPayment(j: JobId) returns (reply: Reply)
      modifies `jobs, `payments
      ensures (Tables(), reply) == AcceptDelivery(old(Tables()), j)
    {
      if j !in jobs {
        return Null;
      }
      if jobs[j].status !in {Delivered, UnderReview} {
        return Throw(InvalidState);
      }
      if !HasPayment(Tables(), j) || payments[paymentByJob[j]].status != Held {
        return Throw(InvalidPaymentState);
      }
      var p := paymentByJob[j];
      jobs := jobs[j := jobs[j].(status := Completed)];
      payments := payments[p := payments[p].(status := ReleasePending)];
      return Updated;
    }

    method AcceptOfferAtomic(o: OfferId, owner: UserId) returns (reply: Reply)
      modifies `jobs, `offers
      ensures (Tables(), reply) == AcceptOffer(old(Tables()), o, owner)
    {
      if o !in offers || offers[o].job !in jobs {
        return Null;
      }
      var j := offers[o].job;
      if jobs[j].owner != owner {
        return Throw(Forbidden);
      }
      if jobs[j].status != Published || offers[o].status != OfferStatus.Pending {
        return Throw(InvalidState);
      }
      var provider := offers[o].provider;
      SelectOffer(o, j);
      jobs := jobs[j := jobs[j].(provider := Some(provider), status := Assigned)];
      return Updated;
    }

    method ModerateJob(j: JobId, status: JobStatus) returns (reply: Reply)
      modifies `jobs
      ensures (Tables(), reply) == Moderate(old(Tables()), j, status)
    {
      if status !in {Draft, Published, Cancelled} {
        return Throw(InvalidStatus);
      }
      if j !in jobs {
        return Null;
      }
      if jobs[j].status in {Completed, Assigned, Funded, InProgress, Delivered, UnderReview} {
        return Throw(JobLocked);
      }
      jobs := jobs[j := jobs[j].(status := status)];
      return Updated;
    }

    // ---------- refunds ----------

    method CreateRefundAtomic(j: JobId, p: PaymentId, owner: UserId, amount: nat, id: RefundId, key: Key,
        createdAt: int) returns (reply: Reply)
      modifies `refunds, `refundByKey, `payments, `outbox
      ensures reply == RefundReply(old(Tables()), j, p, owner, amount, id, key)
      ensures Tables() == CreateRefund(old(Tables()), j, p, owner, amount, id, key, createdAt).0
    {
      if j !in jobs {
        reply := Null;
      } else if jobs[j].owner != owner {
        reply := Throw(Forbidden);
      } else if p !in payments || payments[p].job != j {
        reply := Throw(PaymentNotFound);
      } else if payments[p].status != Held {
        reply := Throw(InvalidPaymentState);
      } else if amount != 0 && amount != payments[p].amount {
        reply := Throw(PartialRefundUnsupported);
      } else {
        reply := RequestLocked(j, p, owner, id, key, createdAt);
      }
    }

    /** The payment is held: its refund row and its event. */
    method RequestLocked(j: JobId, p: PaymentId, owner: UserId, id: RefundId, key: Key,
        createdAt: int) returns (reply: Reply)
      requires p in payments
      modifies `refunds, `refundByKey, `payments, `outbox
      ensures reply == RowReply(old(Tables()), p, id, key)
      ensures Tables() == if reply == Queued then RequestRefundOf(old(Tables()), j, p, owner, id, key, createdAt)
                          else old(Tables())
    {
      reply := WriteRefundRow(p, id, key, createdAt);
      if reply == Queued {
        EnqueueRefund(j, p, owner, id, key, createdAt);
      }
    }

    /** Reopen the failed row of this key, or insert a row. */
    method WriteRefundRow(p: PaymentId, id: RefundId, key: Key, createdAt: int) returns (reply: Reply)
      requires p in payments
      modifies `refunds, `refundByKey
      ensures reply == RowReply(old(Tables()), p, id, key)
      ensures Tables() == if reply != Queued then old(Tables())
                          else WriteRow(old(Tables()), p, RequestedRow(old(Tables()), p, id, key), key, createdAt)
    {
      if key != NoKey && (p, key) in refundByKey && refundByKey[(p, key)] in refunds {
        var r := refundByKey[(p, key)];
        if refunds[r].status != RefundStatus.Failed {
          return Replayed;
        }
        refunds := refunds[r := refunds[r].(status := RefundStatus.Pending, ref := None)];
        return Queued;
      }
      if id in refunds {
        return Throw(UniqueViolation);
      }
      refunds := refunds[id := RefundRow(p, payments[p].amount, RefundStatus.Pending, None, key, createdAt)];
      if key != NoKey {
        refundByKey := refundByKey[(p, key) := id];
      }
      return Queued;
    }

    method EnqueueRefund(j: JobId, p: PaymentId, owner: UserId, id: RefundId, key: Key, now: int)
      requires p in payments
      modifies `payments, `outbox
      ensures Tables() == QueueRefund(old(Tables()), j, p, old(payments[p]), owner, id, key, now)
    {
      var pay := payments[p];
      payments := payments[p := pay.(status := RefundPending)];
      var k := EventKey(Refund, p);
      if k !in outbox {
        var sent := if key != NoKey then key else RefundKey(id);
        outbox := outbox[k := NewEvent(RefundPayload(j, owner, p, id, pay.ref, sent), now)];
      } else if outbox[k].status != EventStatus.Done {
        outbox := outbox[k := outbox[k].(status := EventStatus.Pending, availableAt := now)];
      }
    }

    method MarkEventDone(k: EventKey)
      requires k in outbox
      modifies `outbox
      ensures outbox == old(outbox)[k := MarkDone(old(outbox)[k])]
    {
      outbox := outbox[k := outbox[k].(status := EventStatus.Done, lockedAt := None)];
    }

    method SetPaymentStatus(p: PaymentId, status: PaymentStatus)
      requires p in payments
      modifies `payments
      ensures payments == old(payments)[p := old(payments)[p].(status := status)]
    {
      payments := payments[p := payments[p].(status := status)];
    }

    /** Rows of a refund that is through: refund, payment, job, journal. */
    method WriteRefunded(p: PaymentId, r: RefundId, ref: Option<Ref>, reference: Reference) returns (ok: bool)
      requires p in payments && r in refunds
      modifies `refunds, `payments, `jobs, `ledger, `nextId
      ensures ok <==> Postable(RefundLines(old(payments)[p].fees))
      ensures ok ==> Tables() == FinishRefund(old(Tables()), p, r, ref, reference)
    {
      var pay := payments[p];
      refunds := refunds[r := refunds[r].(status := RefundStatus.Refunded, ref := ref)];
      payments := payments[p := pay.(status := PaymentStatus.Refunded)];
      if pay.job in jobs {
        var next := if jobs[pay.job].provider.None? then Published else Assigned;
        jobs := jobs[pay.job := jobs[pay.job].(status := next)];
      }
      ok := InsertJournal(reference, p, RefundLines(pay.fees));
    }

    /** The refusals of a refund commit; None when nothing refuses it. */
    method RefuseRefund(k: EventKey, j: JobId, p: PaymentId, r: RefundId, ref: Ref, token: Option<nat>)
        returns (reason: Option<Reason>)
      ensures reason.None? ==>
        && k in outbox && p in payments && payments[p].job == j && j in jobs && r in refunds && refunds[r].payment == p
        && RefundCommitReply(Tables(), k, j, p, r, ref, token) == RefundCommitReply(Tables(), k, j, p, r, ref, None)
      ensures reason.Some? ==> RefundCommitReply(Tables(), k, j, p, r, ref, token) == Refused(reason.value)
    {
      if k !in outbox {
        return Some(OutboxNotFound);
      }
      if token.Some? && outbox[k].token != token {
        return Some(StaleLease);
      }
      if p !in payments || payments[p].job != j || j !in jobs {
        return Some(NoSuchPayment);
      }
      if r !in refunds || refunds[r].payment != p {
        return Some(NoSuchRefund);
      }
      return None;
    }

    method CompletePaymentRefundOutbox(k: EventKey, j: JobId, p: PaymentId, r: RefundId, ref: Ref, token: Option<nat>)
        returns (reply: Reply)
      modifies `refunds, `payments, `jobs, `ledger, `nextId, `outbox
      ensures reply == RefundCommitReply(old(Tables()), k, j, p, r, ref, token)
      ensures Tables() == CompleteRefund(old(Tables()), k, j, p, r, ref, token).0
    {
      var reason := RefuseRefund(k, j, p, r, ref, token);
      if reason.Some? {
        reply := Refused(reason.value);
      } else {
        reply := AdvanceRefund(k, p, r, ref);
      }
    }

    /** Payment and refund are there: acknowledge what was done before, refuse what is not pending, or commit. */
    method AdvanceRefund(k: EventKey, p: PaymentId, r: RefundId, ref: Ref) returns (reply: Reply)
      requires k in outbox && p in payments && payments[p].job in jobs && r in refunds && refunds[r].payment == p
      modifies `refunds, `payments, `jobs, `ledger, `nextId, `outbox
      ensures reply == RefundCommitReply(old(Tables()), k, old(payments)[p].job, p, r, ref, None)
      ensures Tables() == CompleteRefund(old(Tables()), k, old(payments)[p].job, p, r, ref, None).0
    {
      if payments[p].status == PaymentStatus.Refunded && refunds[r].status == RefundStatus.Refunded {
        MarkEventDone(k);
        return AlreadyDone;
      }
      if payments[p].status != RefundPending || refunds[r].status != RefundStatus.Pending {
        return Refused(WrongRefundState);
      }
      reply := CommitRefund(k, p, r, ref);
    }

    /** The writes of a refund the provider has confirmed, undone when the journal is refused. */
    method CommitRefund(k: EventKey, p: PaymentId, r: RefundId, ref: Ref) returns (reply: Reply)
      requires k in outbox && p in payments && r in refunds
      modifies `refunds, `payments, `jobs, `ledger, `nextId, `outbox
      ensures reply == (if RefundRefTaken(old(refunds), ref, r) then Throw(UniqueViolation)
                        else if !Postable(RefundLines(old(payments)[p].fees)) then Throw(JournalRejected)
                             else Committed)
      ensures reply == Committed ==>
                Tables() == FinishRefund(DoneEvent(old(Tables()), k), p, r, Some(ref), PaymentRefund)
      ensures reply != Committed ==> Tables() == old(Tables())
    {
      if RefundRefTaken(refunds, ref, r) {
        return Throw(UniqueViolation);
      }
      var ok := RefundOrUndo(p, r, ref);
      if !ok {
        return Throw(JournalRejected);
      }
      MarkEventDone(k);
      return Committed;
    }

    method RefundOrUndo(p: PaymentId, r: RefundId, ref: Ref) returns (ok: bool)
      requires p in payments && r in refunds
      modifies `refunds, `payments, `jobs, `ledger, `nextId
      ensures ok <==> Postable(RefundLines(old(payments)[p].fees))
      ensures Tables() == if ok then FinishRefund(old(Tables()), p, r, Some(ref), PaymentRefund) else old(Tables())
    {
      var before := Tables();
      ok := WriteRefunded(p, r, Some(ref), PaymentRefund);
      if !ok {
        jobs, payments, refunds, ledger, nextId :=
          before.jobs, before.payments, before.refunds, before.ledger, before.nextId;
      }
    }

    // ---------- outbox ----------

    method CompletePaymentCreateHoldOutbox(k: EventKey, j: JobId, p: PaymentId, ref: Ref, token: Option<nat>)
        returns (reply: Reply)
      modifies `payments, `outbox
      ensures reply == HoldCommitReply(old(Tables()), k, j, p, ref, token)
      ensures Tables() == CompleteHold(old(Tables()), k, j, p, ref, token).0
    {
      if k !in outbox {
        reply := Refused(OutboxNotFound);
      } else if token.Some? && outbox[k].token != token {
        reply := Refused(StaleLease);
      } else if p !in payments || payments[p].job != j {
        reply := Refused(NoSuchPayment);
      } else {
        reply := AdvanceHold(k, p, ref);
      }
    }

    /** The payment is there: acknowledge a hold confirmed before, refuse what does not wait for one, or commit. */
    method AdvanceHold(k: EventKey, p: PaymentId, ref: Ref) returns (reply: Reply)
      requires k in outbox && p in payments
      modifies `payments, `outbox
      ensures reply == HoldCommitReply(old(Tables()), k, old(payments)[p].job, p, ref, None)
      ensures Tables() == CompleteHold(old(Tables()), k, old(payments)[p].job, p, ref, None).0
    {
      if payments[p].status == Held {
        if payments[p].ref != ref {
          return Throw(ProviderRefMismatch);
        }
        MarkEventDone(k);
        return AlreadyDone;
      }
      if payments[p].status != HoldPending {
        return Refused(WrongPaymentState);
      }
      reply := CommitHold(k, p, ref);
    }

    method CommitHold(k: EventKey, p: PaymentId, ref: Ref) returns (reply: Reply)
      requires k in outbox && p in payments
      modifies `payments, `outbox
      ensures reply == if RefTaken(old(payments), ref, p) then Throw(UniqueViolation) else Committed
      ensures reply == Committed ==> Tables() == Confirm(DoneEvent(old(Tables()), k), p, ref)
      ensures reply != Committed ==> Tables() == old(Tables())
    {
      if RefTaken(payments, ref, p) {
        return Throw(UniqueViolation);
      }
      payments := payments[p := payments[p].(status := Held, ref := ref)];
      MarkEventDone(k);
      return Committed;
    }

    method EnqueuePaymentRelease(j: JobId, owner: UserId, p: PaymentId, now: int) returns (reply: Reply)
      modifies `payments, `outbox
      ensures reply == ReleaseReply(old(Tables()), j, owner, p)
      ensures Tables() == EnqueueRelease(old(Tables()), j, owner, p, now).0
    {
      if j !in jobs {
        return Null;
      }
      if jobs[j].owner != owner {
        return Throw(Forbidden);
      }
      if jobs[j].status != Completed {
        return Throw(InvalidState);
      }
      if p !in payments || payments[p].job != j || payments[p].status !in {ReleasePending, ReleaseFailed} {
        return Throw(InvalidPaymentState);
      }
      UpsertRelease(j, owner, p, now);
      return Queued;
    }

    /** RELEASE_FAILED goes back to RELEASE_PENDING; the event is inserted, or reset unless it is done. */
    method UpsertRelease(j: JobId, owner: UserId, p: PaymentId, now: int)
      requires p in payments && payments[p].status in {ReleasePending, ReleaseFailed}
      modifies `payments, `outbox
      ensures Tables() == QueueRelease(old(Tables()), j, owner, p, now)
    {
      var pay := payments[p];
      if pay.status == ReleaseFailed {
        SetPaymentStatus(p, ReleasePending);
      } else {
        assert payments[p := payments[p].(status := ReleasePending)] == payments;
      }
      var k := EventKey(Release, p);
      if k !in outbox {
        var sent := if pay.key != NoKey then pay.key else ReleaseKey(p);
        outbox := outbox[k := NewEvent(ReleasePayload(j, owner, p, pay.ref, sent), now)];
      } else if outbox[k].status != EventStatus.Done {
        outbox := outbox[k := outbox[k].(status := EventStatus.Pending, attempts := 0, availableAt := now,
                                         lockedAt := None)];
      } else {
        assert outbox[k := outbox[k]] == outbox;
      }
    }

    /** Rows that another worker has locked are skipped, so the query may return any claimable row. */
    method ClaimOutboxEvent(now: int, lease: nat) returns (k: Option<EventKey>)
      modifies `outbox, `nextId
      ensures k.Some? ==>
                k.value in old(outbox) && Claimable(old(outbox)[k.value], now, lease)
                && Tables() == Claim(old(Tables()), k.value, now)
      ensures k.None? ==> Tables() == old(Tables()) && forall e :: e in outbox ==> !Claimable(outbox[e], now, lease)
    {
      if candidate :| candidate in outbox && Claimable(outbox[candidate], now, lease) {
        ClaimRow(candidate, now, lease);
        return Some(candidate);
      }
      return None;
    }

    method ClaimRow(k: EventKey, now: int, lease: nat)
      requires k in outbox && Claimable(outbox[k], now, lease)
      modifies `outbox, `nextId
      ensures Tables() == Claim(old(Tables()), k, now)
    {
      var e := outbox[k];
      outbox := outbox[k := e.(status := EventStatus.Processing, attempts := e.attempts + 1, lockedAt := Some(now),
                               token := Some(nextId))];
      nextId := nextId + 1;
    }

    method InsertSettlement(p: PaymentId, ref: Ref, amount: nat, currency: Currency) returns (ok: bool)
      modifies `settlements
      ensures ok <==> !SettlementRefTaken(old(settlements), ref, p)
      ensures ok ==> settlements == Settle(old(settlements), p, ref, amount, currency)
    {
      if SettlementRefTaken(settlements, ref, p) {
        return false;
      }
      if p in settlements {
        settlements := settlements[p := settlements[p].(ref := ref)];
      } else {
        settlements := settlements[p := Settlement(ref, amount, currency)];
      }
      return true;
    }

    /** The release journal and the payout journal, in this order. */
    method InsertTwoJournals(p: PaymentId, fees: Fees, releaseReference: Reference, payoutReference: Reference)
        returns (ok: bool)
      modifies `ledger, `nextId
      ensures ok <==> Postable(ReleaseLines(fees)) && Postable(PayoutLines(fees))
      ensures ok ==>
                Tables() == Post(Post(old(Tables()), releaseReference, p, ReleaseLines(fees)), payoutReference, p,
                                 PayoutLines(fees))
    {
      ok := InsertJournal(releaseReference, p, ReleaseLines(fees));
      if ok {
        ok := InsertJournal(payoutReference, p, PayoutLines(fees));
      }
    }

    method SettleJob(j: JobId)
      modifies `jobs
      ensures jobs == SetJobStatus(old(jobs), j, Settled)
    {
      if j in jobs {
        jobs := jobs[j := jobs[j].(status := Settled)];
      }
    }

    /** Rows of a release that is through: payment, job, two journals, settlement. */
    method WriteReleased(p: PaymentId, ref: Ref, releaseReference: Reference, payoutReference: Reference)
        returns (reply: Reply)
      requires p in payments
      modifies `payments, `jobs, `settlements, `ledger, `nextId
      ensures reply == var fees := old(payments)[p].fees;
                       if !Postable(ReleaseLines(fees)) || !Postable(PayoutLines(fees)) then Throw(JournalRejected)
                       else if SettlementRefTaken(old(settlements), ref, p) then Throw(UniqueViolation)
                       else Committed
      ensures reply == Committed ==> Tables() == FinishRelease(old(Tables()), p, ref, releaseReference, payoutReference)
    {
      var pay := payments[p];
      SetPaymentStatus(p, Released);
      SettleJob(pay.job);
      reply := SettleAndPost(p, pay, ref, releaseReference, payoutReference);
    }

    /** The journals and the settlement. */
    method SettleAndPost(p: PaymentId, pay: Payment, ref: Ref, releaseReference: Reference, payoutReference: Reference)
        returns (reply: Reply)
      modifies `settlements, `ledger, `nextId
      ensures reply == if !Postable(ReleaseLines(pay.fees)) || !Postable(PayoutLines(pay.fees))
                       then Throw(JournalRejected)
                       else if SettlementRefTaken(old(settlements), ref, p) then Throw(UniqueViolation)
                       else Committed
      ensures reply == Committed ==>
        var db := old(Tables()).(settlements := Settle(old(settlements), p, ref, pay.fees.payout, pay.currency));
        Tables() == Post(Post(db, releaseReference, p, ReleaseLines(pay.fees)),
                         payoutReference, p, PayoutLines(pay.fees))
    {
      var ok := InsertTwoJournals(p, pay.fees, releaseReference, payoutReference);
      if !ok {
        return Throw(JournalRejected);
      }
      ok := InsertSettlement(p, ref, pay.fees.payout, pay.currency);
      return if ok then Committed else Throw(UniqueViolation);
    }

    method CompletePaymentReleaseOutbox(k: EventKey, j: JobId, p: PaymentId, token: Option<nat>) returns (reply: Reply)
      modifies this
      ensures reply == ReleaseCommitReply(old(Tables()), k, j, p, token)
      ensures Tables() == CompleteRelease(old(Tables()), k, j, p, token).0
    {
      if k !in outbox {
        reply := Refused(OutboxNotFound);
      } else if token.Some? && outbox[k].token != token {
        reply := Refused(StaleLease);
      } else if p !in payments || payments[p].job != j {
        reply := Refused(NoSuchPayment);
      } else if payments[p].status == Released {
        MarkEventDone(k);
        reply := AlreadyDone;
      } else if payments[p].status != ReleasePending {
        reply := Refused(WrongPaymentState);
      } else {
        reply := CommitRelease(k, p);
      }
    }

    /** The writes of a release the provider has confirmed, undone when one of them is refused. */
    method CommitRelease(k: EventKey, p: PaymentId) returns (reply: Reply)
      requires k in outbox && p in payments
      modifies this
      ensures reply == var pay := old(payments)[p];
                       if !Postable(ReleaseLines(pay.fees))
                          || !Postable(PayoutLines(pay.fees)) then Throw(JournalRejected)
                       else if SettlementRefTaken(old(settlements), pay.ref, p) then Throw(UniqueViolation)
                       else Committed
      ensures reply == Committed ==>
                var db := DoneEvent(old(Tables()), k);
                Tables() == FinishRelease(db, p, old(payments)[p].ref, PaymentRelease, PaymentPayout)
      ensures reply != Committed ==> Tables() == old(Tables())
    {
      var before := Tables();
      reply := WriteReleased(p, payments[p].ref, PaymentRelease, PaymentPayout);
      if reply != Committed {
        Restore(before);
        return;
      }
      MarkEventDone(k);
    }

    /** The event first, then one guarded UPDATE after the other. */
    method FailOutboxEvent(k: EventKey, token: Option<nat>, maxAttempts: nat, now: int,
        jitter: nat) returns (reply: Reply)
      modifies `outbox, `payments, `refunds
      ensures reply == FailReply(old(Tables()), k, token, maxAttempts)
      ensures Tables() == FailEvent(old(Tables()), k, token, maxAttempts, now, jitter).0
    {
      if k !in outbox {
        return Null;
      }
      if token.Some? && outbox[k].token != token {
        return Stale;
      }
      var terminal := outbox[k].attempts >= maxAttempts;
      outbox := outbox[k := AfterFailure(outbox[k], maxAttempts, now, jitter)];
      if !terminal {
        return RetryLater;
      }
      CompensateEvent(k);
      return Terminal;
    }

    method CompensateEvent(k: EventKey)
      requires k in outbox
      modifies `payments, `refunds
      ensures Tables() == Compensate(old(Tables()), k)
    {
      var p := k.payment;
      if k.kind == CreateHold && p in payments && payments[p].status == HoldPending {
        SetPaymentStatus(p, HoldFailed);
      }
      if k.kind == Refund && outbox[k].payload.RefundPayload? {
        var r := outbox[k].payload.refund;
        if r in refunds && refunds[r].status == RefundStatus.Pending {
          refunds := refunds[r := refunds[r].(status := RefundStatus.Failed)];
        }
      }
      if k.kind == Refund && p in payments && payments[p].status == RefundPending {
        SetPaymentStatus(p, Held);
      }
      if k.kind == Release && p in payments && payments[p].status == ReleasePending {
        SetPaymentStatus(p, ReleaseFailed);
      }
    }

    // ---------- webhooks ----------

    /** The pending refund of the payment that was created last. */
    method PickPendingRefund(p: PaymentId) returns (row: Option<RefundId>)
      ensures row.Some? ==> LatestPendingRefund(Tables(), p, row.value)
      ensures row.None? <==> !HasPendingRefund(Tables(), p)
    {
      row := None;
      var rest := refunds.Keys;
      while rest != {}
        invariant rest <= refunds.Keys
        invariant row.None? ==> forall r :: r in refunds && r !in rest ==> !PendingRefund(Tables(), p, r)
        invariant row.Some? ==> PendingRefund(Tables(), p, row.value)
        invariant row.Some? ==> forall r :: r in refunds && r !in rest && PendingRefund(Tables(), p, r) ==>
                                  refunds[r].createdAt <= refunds[row.value].createdAt
        decreases rest
      {
        var r :| r in rest;
        rest := rest - {r};
        if PendingRefund(Tables(), p, r) && (row.None? || refunds[row.value].createdAt <= refunds[r].createdAt) {
          row := Some(r);
        }
      }
      if row.Some? {
        assert PendingRefund(Tables(), p, row.value);
      }
    }

    method ApplyPaymentWebhookAtomic(id: WebhookId, kind: WebhookType, p: PaymentId, ref: Ref)
        returns (reply: Reply, row: RefundId)
      modifies this
      ensures kind == PaymentRefunded && HasPendingRefund(old(Tables()), p) ==>
                LatestPendingRefund(old(Tables()), p, row)
      ensures reply == WebhookReply(old(Tables()), id, kind, p, ref, row)
      ensures Tables() == ApplyWebhook(old(Tables()), id, kind, p, ref, row).0
    {
      var picked := PickPendingRefund(p);
      row := RowOf(picked);
      if id in webhooks {
        return Duplicate, row;
      }
      if p !in payments {
        return Throw(PaymentNotFound), row;
      }
      if !ProviderRefMatches(payments[p], ref) && kind != PaymentRefunded {
        return Throw(ProviderRefMismatch), row;
      }
      reply := ProcessWebhook(id, kind, p, ref, picked);
    }

    /** The webhook event is recorded first; if its payment cannot be moved the record is rolled back too. */
    method ProcessWebhook(id: WebhookId, kind: WebhookType, p: PaymentId, ref: Ref, picked: Option<RefundId>)
        returns (reply: Reply)
      requires p in payments
      requires if picked.Some? then PendingRefund(Tables(), p, picked.value) else !HasPendingRefund(Tables(), p)
      modifies this
      ensures reply == if Awaits(old(payments)[p].status, kind) then MoveReply(old(Tables()), kind, p, ref, picked)
                       else Processed
      ensures reply == Processed && kind == PaymentRefunded && Awaits(old(payments)[p].status, kind) ==> picked.Some?
      ensures Tables() == if reply == Processed then WebhookWrites(old(Tables()), id, kind, p, ref, RowOf(picked))
                          else old(Tables())
    {
      if Awaits(payments[p].status, kind) {
        reply := LogAndMove(id, kind, p, ref, picked);
      } else {
        webhooks := webhooks + {id};
        reply := Processed;
      }
    }

    method LogAndMove(id: WebhookId, kind: WebhookType, p: PaymentId, ref: Ref,
        picked: Option<RefundId>) returns (reply: Reply)
      requires p in payments && Awaits(payments[p].status, kind)
      requires if picked.Some? then PendingRefund(Tables(), p, picked.value) else !HasPendingRefund(Tables(), p)
      modifies this
      ensures reply == MoveReply(old(Tables()), kind, p, ref, picked)
      ensures reply == Processed ==> (kind == PaymentRefunded ==> picked.Some?)
      ensures Tables() == if reply != Processed then old(Tables())
                          else MovedByWebhook(Logged(old(Tables()), id), kind, p, ref, RowOf(picked))
    {
      var before := Tables();
      webhooks := webhooks + {id};
      assert Tables() == Logged(before, id);
      LoggedAnswers(before, id, kind, p, ref, picked);
      reply := MoveByWebhook(kind, p, ref, picked);
      if reply != Processed {
        Restore(before);
      }
    }

    /** What a webhook does to the payment that waits for it; anything but Processed is rolled back by the caller. */
    method MoveByWebhook(kind: WebhookType, p: PaymentId, ref: Ref, picked: Option<RefundId>) returns (reply: Reply)
      requires p in payments && Awaits(payments[p].status, kind)
      requires if picked.Some? then PendingRefund(Tables(), p, picked.value) else !HasPendingRefund(Tables(), p)
      modifies this
      ensures reply == MoveReply(old(Tables()), kind, p, ref, picked)
      ensures reply == Processed ==> (kind == PaymentRefunded ==> picked.Some?)
      ensures reply == Processed ==> Tables() == MovedByWebhook(old(Tables()), kind, p, ref, RowOf(picked))
    {
      match kind {
        case PaymentHeld =>
          if RefTaken(payments, ref, p) {
            return Throw(UniqueViolation);
          }
          payments := payments[p := payments[p].(status := Held, ref := ref)];
          return Processed;
        case PaymentReleased =>
          var settledRef := if ref != NoRef then ref else payments[p].ref;
          reply := WriteReleased(p, settledRef, PaymentWebhook, PaymentWebhook);
          if reply == Committed {
            reply := Processed;
          }
        case PaymentRefunded =>
          if picked.None? {
            return Throw(RefundNotFound);
          }
          var newRef := if ref != NoRef then Some(ref) else refunds[picked.value].ref;
          if newRef.Some? && RefundRefTaken(refunds, newRef.value, picked.value) {
            return Throw(UniqueViolation);
          }
          var ok := WriteRefunded(p, picked.value, newRef, PaymentWebhook);
          return if ok then Processed else Throw(JournalRejected);
      }
    }

    // ---------- recruitment ----------

    method TransitionJobApplication(a: ApplicationId, from: set<ApplicationStatus>, to: ApplicationStatus)
        returns (reply: Reply)
      modifies `applications
      ensures (Tables(), reply) == TransitionApplication(old(Tables()), a, from, to)
    {
      if a !in applications || applications[a].status !in from {
        return Null;
      }
      applications := applications[a := applications[a].(status := to)];
      return Updated;
    }

    method TransitionOwnApplication(a: ApplicationId, candidate: UserId, from: set<ApplicationStatus>,
        to: ApplicationStatus) returns (reply: Reply)
      modifies `applications
      ensures (Tables(), reply) == TransitionCandidateApplication(old(Tables()), a, candidate, from, to)
    {
      if a !in applications || applications[a].candidate != candidate || applications[a].status !in from {
        return Null;
      }
      applications := applications[a := applications[a].(status := to)];
      return Updated;
    }

    /** Job and application are locked in this order; a hire that finds the job not hirable has already moved the
        application and is rolled back. */
    method TransitionEmployerApplicationAtomic(a: ApplicationId, owner: UserId, from: set<ApplicationStatus>,
        to: ApplicationStatus, expectedJob: JobId)
      returns (reply: Reply)
      modifies this
      ensures reply == EmployerReply(old(Tables()), a, owner, from, to, expectedJob)
      ensures Tables() == TransitionEmployerApplication(old(Tables()), a, owner, from, to, expectedJob).0
    {
      if a !in applications || applications[a].job !in jobs {
        return Null;
      }
      var j := applications[a].job;
      if j != expectedJob {
        return Throw(ApplicationJobMismatch);
      }
      if jobs[j].owner != owner {
        return Throw(Forbidden);
      }
      if jobs[j].kind != Salaried {
        return Throw(JobOnly);
      }
      if applications[a].status !in from {
        return Throw(InvalidApplicationState);
      }
      if to == ApplicationStatus.Accepted && OtherHired(Tables(), a, j) {
        return Throw(CandidateAlreadyHired);
      }
      reply := WriteTransition(a, j, to);
    }

    method WriteTransition(a: ApplicationId, j: JobId, to: ApplicationStatus) returns (reply: Reply)
      requires a in applications && j in jobs
      modifies this
      ensures reply == if to == ApplicationStatus.Accepted
              && old(jobs)[j].status !in {Published, Assigned} then Throw(JobNotHirable) else Updated
      ensures Tables() == if reply == Updated then MoveApplication(old(Tables()), a, j, to) else old(Tables())
    {
      var before := Tables();
      applications := applications[a := applications[a].(status := to)];
      if to == ApplicationStatus.Accepted {
        if jobs[j].status !in {Published, Assigned} {
          Restore(before);
          return Throw(JobNotHirable);
        }
        jobs := jobs[j := jobs[j].(provider := Some(applications[a].candidate), status := Assigned)];
      }
      return Updated;
    }
  }
}
