/** What every webhook does in every reachable state, in terms of the rows alone: which payments it moves, what it
    writes, and what it is refused for. */
module WebhookEffects {
  import opened Options
  import opened Money
  import opened Schema
  import opened Transactions
  import opened Protocol
  import opened Invariant
  import opened Preservation
  import opened References

  /** The webhook is recorded and nothing else happens. */
  predicate OnlyRecorded(db: Db, next: Db, id: WebhookId) { next == db.(webhooks := db.webhooks + {id}) }

  /** A step with a hold or release webhook without a reference cannot happen; any other one applies it. */
  lemma WebhookStep(w: World, id: WebhookId, kind: WebhookType, p: PaymentId, ref: Ref, row: RefundId)
    requires kind == PaymentRefunded && HasPendingRefund(w.db, p) ==> LatestPendingRefund(w.db, p, row)
    ensures Next(w, Pay(Webhook(id, kind, p, ref, row))).db
            == if kind != PaymentRefunded && ref == NoRef then w.db else ApplyWebhook(w.db, id, kind, p, ref, row).0
  {
  }

  // ---------- hold confirmations ----------

  predicate HeldNow(db: Db, next: Db, id: WebhookId, p: PaymentId)
    requires p in db.payments
  {
    next == db.(webhooks := db.webhooks + {id}, payments := db.payments[p := db.payments[p].(status := Held)])
  }

  lemma WaitsUnderPlaceholder(db: Db, p: PaymentId)
    requires Core(db) && p in db.payments && db.payments[p].status == HoldPending
    ensures db.payments[p].ref == Placeholder(p)
  {
    ViewAt(db, p);
  }

  lemma HeldOutcome(db: Db, id: WebhookId, p: PaymentId, ref: Ref, row: RefundId)
    requires Core(db) && RefsOk(db) && p in db.payments && id !in db.webhooks && ref != NoRef
    ensures var (next, reply) := ApplyWebhook(db, id, PaymentHeld, p, ref, row);
            if ref != db.payments[p].ref then next == db && reply == Throw(ProviderRefMismatch)
            else if db.payments[p].status == HoldPending then HeldNow(db, next, id, p) && reply == Processed
            else OnlyRecorded(db, next, id) && reply == Processed
  {
    assert ref == db.payments[p].ref ==> !RefTaken(db.payments, ref, p);
  }

  /** A new webhook that says a hold is there holds exactly a payment that waits for its hold, when it names the
      placeholder of that payment. Under the stored reference of any other payment it is recorded; under another
      reference, or none, it is refused. */
  lemma HeldWebhook(steps: seq<Step>, id: WebhookId, p: PaymentId, ref: Ref, row: RefundId)
    requires p in Run(INITIAL, steps).db.payments && id !in Run(INITIAL, steps).db.webhooks
    ensures var db := Run(INITIAL, steps).db;
            var next := Next(Run(INITIAL, steps), Pay(Webhook(id, PaymentHeld, p, ref, row))).db;
            && (db.payments[p].status == HoldPending && ref == Placeholder(p) ==> HeldNow(db, next, id, p))
            && (db.payments[p].status != HoldPending && ref == db.payments[p].ref ==> OnlyRecorded(db, next, id))
            && (ref != db.payments[p].ref ==>
                 next == db
                 && (ref != NoRef ==> ApplyWebhook(db, id, PaymentHeld, p, ref, row).1 == Throw(ProviderRefMismatch)))
  {
    var db := Run(INITIAL, steps).db;
    ReachableRefsOk(steps);
    WebhookStep(Run(INITIAL, steps), id, PaymentHeld, p, ref, row);
    if db.payments[p].status == HoldPending {
      WaitsUnderPlaceholder(db, p);
    }
    if ref != NoRef {
      HeldOutcome(db, id, p, ref, row);
    }
  }

  // ---------- release confirmations ----------

  /** The payment, its job and its settlement are finished, with one release journal and one payout journal. */
  predicate ReleasedNow(db: Db, next: Db, id: WebhookId, p: PaymentId)
    requires p in db.payments && db.payments[p].job in db.jobs
  {
    var pay := db.payments[p];
    && next.payments == db.payments[p := pay.(status := Released)]
    && next.jobs == db.jobs[pay.job := db.jobs[pay.job].(status := Settled)]
    && next.settlements == db.settlements[p := Settlement(pay.ref, pay.fees.payout, pay.currency)]
    && next.ledger == db.ledger
                      + [Entry(db.nextId, PaymentWebhook, p, Line(EscrowLiability, pay.fees.payout, 0)),
                         Entry(db.nextId, PaymentWebhook, p, Line(UserPayable, 0, pay.fees.payout)),
                         Entry(db.nextId + 1, PaymentWebhook, p, Line(UserPayable, pay.fees.payout, 0)),
                         Entry(db.nextId + 1, PaymentWebhook, p, Line(PlatformCash, 0, pay.fees.payout))]
    && next.webhooks == db.webhooks + {id}
    && next == db.(payments := next.payments, jobs := next.jobs, settlements := next.settlements, ledger := next.ledger,
                   webhooks := next.webhooks, nextId := db.nextId + 2)
  }

  lemma ReleasedWrites(db: Db, id: WebhookId, p: PaymentId)
    requires p in db.payments && db.payments[p].job in db.jobs && p !in db.settlements
    ensures ReleasedNow(db, FinishRelease(Logged(db, id), p, db.payments[p].ref, PaymentWebhook, PaymentWebhook), id, p)
  {
    var next := FinishRelease(Logged(db, id), p, db.payments[p].ref, PaymentWebhook, PaymentWebhook);
    var f := db.payments[p].fees;
    assert next.ledger == db.ledger + (Rows(db.nextId, PaymentWebhook, p, ReleaseLines(f))
                                       + Rows(db.nextId + 1, PaymentWebhook, p, PayoutLines(f)));
  }

  lemma ReleasedReply(db: Db, id: WebhookId, p: PaymentId, ref: Ref, row: RefundId)
    requires RefsOk(db) && p in db.payments && FeesOk(db.payments[p].fees) && id !in db.webhooks && ref != NoRef
    ensures WebhookReply(db, id, PaymentReleased, p, ref, row)
            == if ref != db.payments[p].ref then Throw(ProviderRefMismatch) else Processed
  {
    FeesPostable(db.payments[p].fees);
    SettlementRefFree(db, p);
  }

  lemma ReleasedMove(db: Db, id: WebhookId, p: PaymentId, row: RefundId)
    requires Core(db) && RefsOk(db) && p in db.payments && db.payments[p].status in {ReleasePending, ReleaseFailed}
    ensures ReleasedNow(db, WebhookWrites(db, id, PaymentReleased, p, db.payments[p].ref, row), id, p)
  {
    UnsettledUntilReleased(db, p);
    ReleasedWrite(db, id, p, db.payments[p].ref, row);
    ReleasedWrites(db, id, p);
  }

  lemma ReleasedOutcome(db: Db, id: WebhookId, p: PaymentId, ref: Ref, row: RefundId)
    requires Core(db) && RefsOk(db) && p in db.payments && id !in db.webhooks && ref != NoRef
    ensures var (next, reply) := ApplyWebhook(db, id, PaymentReleased, p, ref, row);
            if ref != db.payments[p].ref then next == db && reply == Throw(ProviderRefMismatch)
            else if db.payments[p].status in {ReleasePending, ReleaseFailed}
              then ReleasedNow(db, next, id, p) && reply == Processed
            else OnlyRecorded(db, next, id) && reply == Processed
  {
    assert FeesOk(db.payments[p].fees) by { ViewAt(db, p); }
    ReleasedReply(db, id, p, ref, row);
    if db.payments[p].status in {ReleasePending, ReleaseFailed} {
      ReleasedMove(db, id, p, row);
    }
  }

  /** A new webhook that says a payment was released releases exactly a payment that waits for it or whose release had
      failed, under its stored reference. */
  lemma ReleasedWebhook(steps: seq<Step>, id: WebhookId, p: PaymentId, ref: Ref, row: RefundId)
    requires p in Run(INITIAL, steps).db.payments && id !in Run(INITIAL, steps).db.webhooks
    ensures var db := Run(INITIAL, steps).db;
            var next := Next(Run(INITIAL, steps), Pay(Webhook(id, PaymentReleased, p, ref, row))).db;
            var waits := db.payments[p].status in {ReleasePending, ReleaseFailed};
            && db.payments[p].job in db.jobs
            && (waits && ref == db.payments[p].ref ==> ReleasedNow(db, next, id, p))
            && (!waits && ref == db.payments[p].ref ==> OnlyRecorded(db, next, id))
            && (ref != db.payments[p].ref ==>
                 next == db
                 && (ref != NoRef ==>
                      ApplyWebhook(db, id, PaymentReleased, p, ref, row).1 == Throw(ProviderRefMismatch)))
  {
    var db := Run(INITIAL, steps).db;
    ReachableRefsOk(steps);
    WebhookStep(Run(INITIAL, steps), id, PaymentReleased, p, ref, row);
    if ref != NoRef {
      ReleasedOutcome(db, id, p, ref, row);
    }
  }

  // ---------- refunds ----------

  /** Of the pending refunds of the payment the row is one created last. */
  predicate IsLatest(db: Db, p: PaymentId, row: RefundId) {
    && row in db.refunds && db.refunds[row].payment == p && db.refunds[row].status == RefundStatus.Pending
    && forall r :: r in db.refunds && db.refunds[r].payment == p && db.refunds[r].status == RefundStatus.Pending ==>
         db.refunds[r].createdAt <= db.refunds[row].createdAt
  }

  /** The row, the payment and the job are refunded, with one refund journal; the row gets the reference, if there is
      one, and the job is open again. */
  predicate RefundedNow(db: Db, next: Db, id: WebhookId, p: PaymentId, ref: Ref, row: RefundId)
    requires p in db.payments && db.payments[p].job in db.jobs && row in db.refunds
  {
    var pay := db.payments[p];
    var job := db.jobs[pay.job];
    && next.refunds == db.refunds[row := db.refunds[row].(status := RefundStatus.Refunded,
                                                          ref := if ref == NoRef then None else Some(ref))]
    && next.payments == db.payments[p := pay.(status := PaymentStatus.Refunded)]
    && next.jobs == db.jobs[pay.job := job.(status := if job.provider == None then Published else Assigned)]
    && next.ledger == db.ledger
                      + [Entry(db.nextId, PaymentWebhook, p, Line(EscrowLiability, pay.fees.payout, 0)),
                         Entry(db.nextId, PaymentWebhook, p, Line(PlatformFeeRevenue, pay.fees.platformFee, 0)),
                         Entry(db.nextId, PaymentWebhook, p, Line(PlatformCash, 0, pay.fees.charge))]
    && next == db.(refunds := next.refunds, payments := next.payments, jobs := next.jobs, ledger := next.ledger,
                   webhooks := db.webhooks + {id}, nextId := db.nextId + 1)
  }

  lemma RefundedReply(db: Db, id: WebhookId, p: PaymentId, ref: Ref, row: RefundId)
    requires RefsOk(db) && p in db.payments && FeesOk(db.payments[p].fees) && id !in db.webhooks
    requires db.payments[p].status == RefundPending && LatestPendingRefund(db, p, row)
    ensures WebhookReply(db, id, PaymentRefunded, p, ref, row)
            == if ref != NoRef && OtherRefundHas(db, row, ref) then Throw(UniqueViolation) else Processed
  {
    FeesPostable(db.payments[p].fees);
    assert HasPendingRefund(db, p);
    assert RefundedRef(db, row, ref) == if ref != NoRef then Some(ref) else None;
    assert RefundRefTaken(db.refunds, ref, row) <==> OtherRefundHas(db, row, ref);
  }

  lemma RefundedWrites(db: Db, id: WebhookId, p: PaymentId, ref: Ref, row: RefundId)
    requires p in db.payments && db.payments[p].job in db.jobs && row in db.refunds
    requires db.refunds[row].ref == None
    ensures RefundedNow(db, FinishRefund(Logged(db, id), p, row, RefundedRef(db, row, ref), PaymentWebhook), id, p, ref,
                        row)
  {
  }

  lemma RefundedWrite(db: Db, id: WebhookId, p: PaymentId, ref: Ref, row: RefundId)
    requires p in db.payments && db.payments[p].status == RefundPending && PendingRefund(db, p, row)
    ensures WebhookWrites(db, id, PaymentRefunded, p, ref, row)
            == FinishRefund(Logged(db, id), p, row, RefundedRef(db, row, ref), PaymentWebhook)
  {
  }

  lemma RefundedOutcome(db: Db, id: WebhookId, p: PaymentId, ref: Ref, row: RefundId)
    requires Core(db) && RefsOk(db) && p in db.payments && id !in db.webhooks
    requires db.payments[p].status == RefundPending && LatestPendingRefund(db, p, row)
    ensures var (next, reply) := ApplyWebhook(db, id, PaymentRefunded, p, ref, row);
            if ref != NoRef && OtherRefundHas(db, row, ref) then next == db && reply == Throw(UniqueViolation)
            else RefundedNow(db, next, id, p, ref, row) && reply == Processed
  {
    ViewAt(db, p);
    RefundedReply(db, id, p, ref, row);
    RefundedWrite(db, id, p, ref, row);
    RefundedWrites(db, id, p, ref, row);
  }

  lemma PendingRowExists(db: Db, p: PaymentId)
    requires Core(db) && p in db.payments && db.payments[p].status == RefundPending
    ensures HasPendingRefund(db, p)
  {
    ViewAt(db, p);
    var v := ViewOf(db, p);
    var r :| r in v.refunds && v.refunds[r].status == RefundStatus.Pending;
    assert PendingRefund(db, p, r);
  }

  lemma UnawaitedRefund(db: Db, id: WebhookId, p: PaymentId, ref: Ref, row: RefundId)
    requires p in db.payments && id !in db.webhooks && db.payments[p].status != RefundPending
    requires HasPendingRefund(db, p) ==> LatestPendingRefund(db, p, row)
    ensures OnlyRecorded(db, ApplyWebhook(db, id, PaymentRefunded, p, ref, row).0, id)
  {
  }

  lemma LatestIs(db: Db, p: PaymentId, row: RefundId)
    ensures IsLatest(db, p, row) <==> LatestPendingRefund(db, p, row)
    ensures IsLatest(db, p, row) ==> HasPendingRefund(db, p)
  {
    if LatestPendingRefund(db, p, row) {
      forall r | r in db.refunds && db.refunds[r].payment == p && db.refunds[r].status == RefundStatus.Pending
        ensures db.refunds[r].createdAt <= db.refunds[row].createdAt {
        assert PendingRefund(db, p, r);
      }
    }
    if IsLatest(db, p, row) {
      assert PendingRefund(db, p, row);
    }
  }

  predicate SomePending(db: Db, p: PaymentId) {
    exists r :: r in db.refunds && db.refunds[r].payment == p && db.refunds[r].status == RefundStatus.Pending
  }

  /** A new webhook that says a payment was refunded refunds exactly a payment that waits for its refund, under any
      reference no other refund has, or none: the row is the pending refund created last, which is always there. Any
      other payment it leaves as it is, under whatever reference, and is only recorded. */
  lemma RefundedWebhook(steps: seq<Step>, id: WebhookId, p: PaymentId, ref: Ref, row: RefundId)
    requires p in Run(INITIAL, steps).db.payments && id !in Run(INITIAL, steps).db.webhooks
    requires SomePending(Run(INITIAL, steps).db, p) ==> IsLatest(Run(INITIAL, steps).db, p, row)
    ensures var db := Run(INITIAL, steps).db;
            var next := Next(Run(INITIAL, steps), Pay(Webhook(id, PaymentRefunded, p, ref, row))).db;
            && db.payments[p].job in db.jobs
            && (db.payments[p].status != RefundPending ==> OnlyRecorded(db, next, id))
            && (db.payments[p].status == RefundPending ==>
                 IsLatest(db, p, row)
                 && if ref != NoRef && OtherRefundHas(db, row, ref) then next == db
                    else RefundedNow(db, next, id, p, ref, row))
  {
    var db := Run(INITIAL, steps).db;
    ReachableRefsOk(steps);
    LatestIs(db, p, row);
    assert HasPendingRefund(db, p) <==> SomePending(db, p);
    WebhookStep(Run(INITIAL, steps), id, PaymentRefunded, p, ref, row);
    if db.payments[p].status == RefundPending {
      PendingRowExists(db, p);
      RefundedOutcome(db, id, p, ref, row);
    } else {
      UnawaitedRefund(db, id, p, ref, row);
    }
  }

  // ---------- answers ----------

  lemma NewAnswer(db: Db, id: WebhookId, kind: WebhookType, p: PaymentId, ref: Ref, row: RefundId)
    requires Core(db) && RefsOk(db) && p in db.payments && id !in db.webhooks
    requires kind != PaymentRefunded ==> ref != NoRef
    requires kind == PaymentRefunded && HasPendingRefund(db, p) ==> LatestPendingRefund(db, p, row)
    ensures ApplyWebhook(db, id, kind, p, ref, row).1
            == if kind != PaymentRefunded && ref != db.payments[p].ref then Throw(ProviderRefMismatch)
               else if kind == PaymentRefunded && db.payments[p].status == RefundPending && ref != NoRef
                       && OtherRefundHas(db, row, ref) then Throw(UniqueViolation)
               else Processed
  {
    match kind {
      case PaymentHeld => HeldOutcome(db, id, p, ref, row);
      case PaymentReleased => ReleasedOutcome(db, id, p, ref, row);
      case PaymentRefunded =>
        if db.payments[p].status == RefundPending {
          PendingRowExists(db, p);
          RefundedOutcome(db, id, p, ref, row);
        }
    }
  }

  /** Why a webhook is refused: the payment is not there, the reference is not the stored one, or another refund has the
      reference. */
  function Refusal(db: Db, kind: WebhookType, p: PaymentId, ref: Ref, row: RefundId): Option<Error> {
    if p !in db.payments then Some(PaymentNotFound)
    else if kind != PaymentRefunded && ref != db.payments[p].ref then Some(ProviderRefMismatch)
    else if kind == PaymentRefunded && db.payments[p].status == RefundPending && ref != NoRef
            && OtherRefundHas(db, row, ref) then Some(UniqueViolation)
    else None
  }

  lemma AnswerTable(db: Db, id: WebhookId, kind: WebhookType, p: PaymentId, ref: Ref, row: RefundId)
    requires Core(db) && RefsOk(db) && (kind != PaymentRefunded ==> ref != NoRef)
    requires kind == PaymentRefunded && HasPendingRefund(db, p) ==> LatestPendingRefund(db, p, row)
    ensures ApplyWebhook(db, id, kind, p, ref, row).1
            == if id in db.webhooks then Duplicate
               else match Refusal(db, kind, p, ref, row) case Some(error) => Throw(error) case None => Processed
  {
    if p in db.payments && id !in db.webhooks {
      NewAnswer(db, id, kind, p, ref, row);
    }
  }

  lemma PickedIsLatest(db: Db, p: PaymentId, row: RefundId)
    requires SomePending(db, p) ==> IsLatest(db, p, row)
    ensures HasPendingRefund(db, p) ==> LatestPendingRefund(db, p, row)
  {
    LatestIs(db, p, row);
    assert HasPendingRefund(db, p) <==> SomePending(db, p);
  }

  /** The answer to every webhook: a repeated id is a duplicate, whatever the webhook says; otherwise it is refused for
      one of the three reasons, or processed. */
  lemma WebhookAnswer(steps: seq<Step>, id: WebhookId, kind: WebhookType, p: PaymentId, ref: Ref, row: RefundId)
    requires kind != PaymentRefunded ==> ref != NoRef
    requires kind == PaymentRefunded && SomePending(Run(INITIAL, steps).db, p) ==>
               IsLatest(Run(INITIAL, steps).db, p, row)
    ensures var db := Run(INITIAL, steps).db;
            && (kind == PaymentRefunded && HasPendingRefund(db, p) ==> LatestPendingRefund(db, p, row))
            && ApplyWebhook(db, id, kind, p, ref, row).1
               == if id in db.webhooks then Duplicate
                  else match Refusal(db, kind, p, ref, row) case Some(error) => Throw(error) case None => Processed
  {
    var db := Run(INITIAL, steps).db;
    ReachableRefsOk(steps);
    if kind == PaymentRefunded {
      PickedIsLatest(db, p, row);
    }
    AnswerTable(db, id, kind, p, ref, row);
  }
}
