/** Provider references: every payment has one, no two payments share one, a settlement carries the one of its payment,
    and a refund has none before it is through. */
module References {
  import opened Options
  import opened Schema
  import opened Transactions
  import opened Protocol
  import opened Invariant
  import opened Preservation
  import opened Evolution
  import opened Reachability

  predicate PaymentRefsOk(payments: map<PaymentId, Payment>) {
    && (forall p :: p in payments ==> payments[p].ref != NoRef)
    && (forall p, q :: p in payments && q in payments && payments[p].ref == payments[q].ref ==> p == q)
  }

  predicate SettlementRefsOk(db: Db) {
    forall p :: p in db.settlements ==> p in db.payments && db.settlements[p].ref == db.payments[p].ref
  }

  predicate RefundRefsOk(refunds: map<RefundId, RefundRow>) {
    forall r :: r in refunds && refunds[r].status != RefundStatus.Refunded ==> refunds[r].ref == None
  }

  predicate RefsOk(db: Db) { PaymentRefsOk(db.payments) && SettlementRefsOk(db) && RefundRefsOk(db.refunds) }

  /** Payments and settlements keep their references. */
  predicate SameRefs(db: Db, next: Db) {
    && next.payments.Keys == db.payments.Keys && next.settlements == db.settlements
    && (forall p :: p in db.payments ==> next.payments[p].ref == db.payments[p].ref)
  }

  lemma SameRefsKeep(db: Db, next: Db)
    requires RefsOk(db) && SameRefs(db, next) && RefundRefsOk(next.refunds)
    ensures RefsOk(next)
  {
  }

  // ---------- funding ----------

  lemma InsertKeepsRefs(db: Db, pay: Payment, id: PaymentId, offer: Option<OfferId>, now: int)
    requires RefsOk(db) && pay.job in db.jobs && pay.ref == Placeholder(id) && id !in db.payments
    requires !RefTaken(db.payments, Placeholder(id), id)
    ensures RefsOk(InsertPayment(db, pay, id, offer, now))
  {
    assert forall q :: q in db.payments ==> db.payments[q].ref != Placeholder(id);
  }

  lemma FundKeepsRefs(db: Db, s: PayStep)
    requires s.Fund? && RefsOk(db)
    ensures RefsOk(NextPay(db, s))
  {
    var reply := FundReply(db, s.job, s.payer, s.payee, s.chosen, s.amount, s.payment, s.key);
    if reply == Created {
      assert !RefTaken(db.payments, Placeholder(s.payment), s.payment);
      InsertKeepsRefs(db, NewPayment(db.jobs[s.job], s.job, s.payer, s.payee, s.amount, s.payment, s.key, s.currency),
                      s.payment, s.chosen, s.now);
    } else if reply == Retried {
      RetryKeepsRefs(db, s.job, s.payer, s.key, s.currency, s.now);
    }
  }

  lemma RetryKeepsRefs(db: Db, j: JobId, payer: UserId, key: Key, currency: Currency, now: int)
    requires RefsOk(db) && HasPayment(db, j)
    ensures RefsOk(RetryHold(db, j, payer, key, currency, now))
  {
    SameRefsKeep(db, RetryHold(db, j, payer, key, currency, now));
  }

  // ---------- requests ----------

  lemma RequestKeepsRefs(db: Db, s: PayStep)
    requires (s.Accept? || s.RequestRefund? || s.RequestRelease?) && RefsOk(db)
    ensures RefsOk(NextPay(db, s))
  {
    if NextPay(db, s) != db {
      match s {
        case Accept(j) => AcceptKeepsRefs(db, j, db.paymentByJob[j]);
        case RequestRefund(j, p, owner, _, r, key, now) => RefundRequestKeepsRefs(db, j, p, owner, r, key, now);
        case RequestRelease(j, owner, p, now) => ReleaseRequestKeepsRefs(db, j, owner, p, now);
      }
    }
  }

  lemma RefundRequestKeepsRefs(db: Db, j: JobId, p: PaymentId, owner: UserId, r: RefundId, key: Key, now: int)
    requires RefsOk(db) && p in db.payments
    ensures RefsOk(RequestRefundOf(db, j, p, owner, r, key, now))
  {
    SameRefsKeep(db, RequestRefundOf(db, j, p, owner, r, key, now));
  }

  lemma AcceptKeepsRefs(db: Db, j: JobId, p: PaymentId)
    requires RefsOk(db) && p in db.payments
    ensures RefsOk(CompleteJob(db, j, p))
  {
    SameRefsKeep(db, CompleteJob(db, j, p));
  }

  lemma ReleaseRequestKeepsRefs(db: Db, j: JobId, owner: UserId, p: PaymentId, now: int)
    requires RefsOk(db) && p in db.payments
    ensures RefsOk(QueueRelease(db, j, owner, p, now))
  {
    SameRefsKeep(db, QueueRelease(db, j, owner, p, now));
  }

  // ---------- endings ----------

  lemma ReleaseKeepsRefs(db: Db, p: PaymentId, ref: Ref, release: Reference, payout: Reference)
    requires RefsOk(db) && p in db.payments && ref == db.payments[p].ref
    ensures RefsOk(FinishRelease(db, p, ref, release, payout))
  {
    var next := FinishRelease(db, p, ref, release, payout);
    assert PaymentRefsOk(next.payments);
  }

  lemma RefundKeepsRefs(db: Db, p: PaymentId, r: RefundId, ref: Option<Ref>, reference: Reference)
    requires RefsOk(db) && p in db.payments && r in db.refunds
    ensures RefsOk(FinishRefund(db, p, r, ref, reference))
  {
    SameRefsKeep(db, FinishRefund(db, p, r, ref, reference));
  }

  lemma ConfirmKeepsRefs(db: Db, p: PaymentId, ref: Ref)
    requires RefsOk(db) && p in db.payments && p !in db.settlements && ref != NoRef && !RefTaken(db.payments, ref, p)
    ensures RefsOk(Confirm(db, p, ref))
  {
    assert forall q :: q in db.payments && q != p ==> db.payments[q].ref != ref;
  }

  // ---------- webhooks ----------

  lemma HeldWriteKeepsRefs(db: Db, id: WebhookId, p: PaymentId, ref: Ref, row: RefundId)
    requires Core(db) && RefsOk(db) && p in db.payments && ref != NoRef
    requires db.payments[p].status == HoldPending ==> !RefTaken(db.payments, ref, p)
    ensures RefsOk(WebhookWrites(db, id, PaymentHeld, p, ref, row))
  {
    if db.payments[p].status == HoldPending {
      UnsettledUntilReleased(db, p);
      ConfirmKeepsRefs(Logged(db, id), p, ref);
    } else {
      SameRefsKeep(db, Logged(db, id));
    }
  }

  lemma ReleasedWrite(db: Db, id: WebhookId, p: PaymentId, ref: Ref, row: RefundId)
    requires p in db.payments && ref != NoRef && db.payments[p].status in {ReleasePending, ReleaseFailed}
    ensures WebhookWrites(db, id, PaymentReleased, p, ref, row)
            == FinishRelease(Logged(db, id), p, ref, PaymentWebhook, PaymentWebhook)
  {
  }

  lemma ReleasedMoveKeepsRefs(db: Db, id: WebhookId, p: PaymentId, ref: Ref)
    requires RefsOk(db) && p in db.payments && ref == db.payments[p].ref
    ensures RefsOk(FinishRelease(Logged(db, id), p, ref, PaymentWebhook, PaymentWebhook))
  {
    LoggedKeepsRefs(db, id);
    ReleaseKeepsRefs(Logged(db, id), p, ref, PaymentWebhook, PaymentWebhook);
  }

  lemma LoggedKeepsRefs(db: Db, id: WebhookId)
    requires RefsOk(db)
    ensures RefsOk(Logged(db, id))
  {
    SameRefsKeep(db, Logged(db, id));
  }

  lemma ReleasedWriteKeepsRefs(db: Db, next: Db, id: WebhookId, p: PaymentId, ref: Ref, row: RefundId)
    requires RefsOk(db) && p in db.payments && ref == db.payments[p].ref
    requires next == WebhookWrites(db, id, PaymentReleased, p, ref, row)
    ensures RefsOk(next)
  {
    if db.payments[p].status in {ReleasePending, ReleaseFailed} {
      ReleasedWrite(db, id, p, ref, row);
      ReleasedMoveKeepsRefs(db, id, p, ref);
    } else {
      LoggedKeepsRefs(db, id);
    }
  }

  lemma RefundedWriteKeepsRefs(db: Db, id: WebhookId, p: PaymentId, ref: Ref, row: RefundId)
    requires RefsOk(db) && p in db.payments
    requires db.payments[p].status == RefundPending ==> PendingRefund(db, p, row)
    ensures RefsOk(WebhookWrites(db, id, PaymentRefunded, p, ref, row))
  {
    if db.payments[p].status == RefundPending {
      RefundKeepsRefs(Logged(db, id), p, row, RefundedRef(db, row, ref), PaymentWebhook);
    } else {
      SameRefsKeep(db, Logged(db, id));
    }
  }

  /** What the guards of the two webhooks with a checked reference have made sure of. */
  lemma CheckedReference(db: Db, id: WebhookId, kind: WebhookType, p: PaymentId, ref: Ref, row: RefundId)
    requires kind != PaymentRefunded && ref != NoRef && PaymentRefsOk(db.payments)
    requires WebhookReply(db, id, kind, p, ref, row) == Processed
    ensures p in db.payments && ref == db.payments[p].ref
    ensures kind == PaymentHeld && db.payments[p].status == HoldPending ==> !RefTaken(db.payments, ref, p)
  {
  }

  lemma WebhookKeepsRefs(db: Db, id: WebhookId, kind: WebhookType, p: PaymentId, ref: Ref, row: RefundId)
    requires Core(db) && RefsOk(db)
    requires if kind == PaymentRefunded then HasPendingRefund(db, p) ==> LatestPendingRefund(db, p, row)
             else ref != NoRef
    ensures RefsOk(ApplyWebhook(db, id, kind, p, ref, row).0)
  {
    if WebhookReply(db, id, kind, p, ref, row) == Processed {
      match kind {
        case PaymentHeld => CheckedReference(db, id, kind, p, ref, row); HeldWriteKeepsRefs(db, id, p, ref, row);
        case PaymentReleased =>
          CheckedReference(db, id, kind, p, ref, row);
          ReleasedWriteKeepsRefs(db, WebhookWrites(db, id, kind, p, ref, row), id, p, ref, row);
        case PaymentRefunded => RefundedWriteKeepsRefs(db, id, p, ref, row);
      }
    }
  }

  lemma UnsettledUntilReleased(db: Db, p: PaymentId)
    requires Core(db) && p in db.payments && db.payments[p].status != Released
    ensures p !in db.settlements
  {
    ViewAt(db, p);
    assert ViewOf(db, p).settlement == Get(db.settlements, p);
  }

  lemma PayKeepsRefs(db: Db, s: PayStep)
    requires Core(db) && RefsOk(db)
    ensures RefsOk(NextPay(db, s))
  {
    if s.Fund? {
      FundKeepsRefs(db, s);
    } else if !s.Webhook? {
      RequestKeepsRefs(db, s);
    } else if !Impossible(db, s) {
      WebhookKeepsRefs(db, s.id, s.kind, s.payment, s.ref, s.row);
    }
  }

  // ---------- workers ----------

  lemma HoldKeepsRefs(db: Db, k: EventKey, j: JobId, p: PaymentId, ref: Ref, token: Option<nat>)
    requires Core(db) && RefsOk(db) && ref != NoRef
    ensures RefsOk(CompleteHold(db, k, j, p, ref, token).0)
  {
    var reply := HoldCommitReply(db, k, j, p, ref, token);
    if reply == Committed {
      assert !RefTaken(db.payments, ref, p);
      UnsettledUntilReleased(db, p);
      ConfirmKeepsRefs(DoneEvent(db, k), p, ref);
    }
  }

  lemma ReleaseCommitKeepsRefs(db: Db, k: EventKey, j: JobId, p: PaymentId, token: Option<nat>)
    requires RefsOk(db)
    ensures RefsOk(CompleteRelease(db, k, j, p, token).0)
  {
    if ReleaseCommitReply(db, k, j, p, token) == Committed {
      ReleaseKeepsRefs(DoneEvent(db, k), p, db.payments[p].ref, PaymentRelease, PaymentPayout);
    }
  }

  lemma RefundCommitKeepsRefs(db: Db, k: EventKey, j: JobId, p: PaymentId, r: RefundId, ref: Ref, token: Option<nat>)
    requires RefsOk(db)
    ensures RefsOk(CompleteRefund(db, k, j, p, r, ref, token).0)
  {
    if RefundCommitReply(db, k, j, p, r, ref, token) == Committed {
      RefundKeepsRefs(DoneEvent(db, k), p, r, Some(ref), PaymentRefund);
    }
  }

  lemma FailWithKeepsRefs(db: Db, k: EventKey, failed: Event)
    requires RefsOk(db) && k in db.outbox
    ensures RefsOk(FailWith(db, k, failed))
  {
    var db1 := db.(outbox := db.outbox[k := failed]);
    SameRefsKeep(db, db1);
    if failed.status == EventStatus.Failed {
      CompensateKeepsRefs(db1, k);
    }
  }

  lemma CompensateKeepsRefs(db: Db, k: EventKey)
    requires RefsOk(db) && k in db.outbox
    ensures RefsOk(Compensate(db, k))
  {
    SameRefsKeep(db, Compensate(db, k));
  }

  lemma FailKeepsRefs(db: Db, k: EventKey, token: Option<nat>, maxAttempts: nat, now: int, jitter: nat)
    requires RefsOk(db)
    ensures RefsOk(FailEvent(db, k, token, maxAttempts, now, jitter).0)
  {
    if FailReply(db, k, token, maxAttempts) in {RetryLater, Terminal} {
      FailWithKeepsRefs(db, k, AfterFailure(db.outbox[k], maxAttempts, now, jitter));
    }
  }

  lemma WorkKeepsRefs(w: World, s: WorkStep)
    requires Core(w.db) && RefsOk(w.db) && Enabled(w, Work(s))
    ensures RefsOk(NextWork(w.db, s))
  {
    match s {
      case ClaimStep(k, now, _) => SameRefsKeep(w.db, Claim(w.db, k, now));
      case CallProvider(_) =>
      case Fail(t, maxAttempts, now, jitter) => FailKeepsRefs(w.db, t.event, Some(t.token), maxAttempts, now, jitter);
      case Complete(t, ref) =>
        match t.payload {
          case HoldPayload(j, _, p, _, _, _, _) => HoldKeepsRefs(w.db, t.event, j, p, ref, Some(t.token));
          case ReleasePayload(j, _, p, _, _) => ReleaseCommitKeepsRefs(w.db, t.event, j, p, Some(t.token));
          case RefundPayload(j, _, p, r, _, _) => RefundCommitKeepsRefs(w.db, t.event, j, p, r, ref, Some(t.token));
        }
    }
  }

  // ---------- runs ----------

  lemma NextKeepsRefs(w: World, s: Step)
    requires Core(w.db) && RefsOk(w.db)
    ensures RefsOk(Next(w, s).db)
  {
    if Enabled(w, s) {
      match s {
        case Board(b) => BoardBystands(w.db, b); SameRefsKeep(w.db, NextBoard(w.db, b));
        case Recruit(r) => RecruitBystands(w.db, r); SameRefsKeep(w.db, NextRecruit(w.db, r));
        case Pay(m) => PayKeepsRefs(w.db, m);
        case Work(k) => WorkKeepsRefs(w, k);
      }
    }
  }

  /** In every reachable state payments have distinct references, settlements that of their payment, and a refund that
      is not through has none. */
  lemma {:induction false} ReachableRefsOk(steps: seq<Step>)
    ensures RefsOk(Run(INITIAL, steps).db) && Core(Run(INITIAL, steps).db)
  {
    ReachableWorldOk(steps);
    if steps != [] {
      ReachableRefsOk(steps[..|steps|-1]);
      NextKeepsRefs(Run(INITIAL, steps[..|steps|-1]), steps[|steps|-1]);
    }
  }

  // ---------- what is free ----------

  lemma SettlementRefFree(db: Db, p: PaymentId)
    requires RefsOk(db) && p in db.payments
    ensures !SettlementRefTaken(db.settlements, db.payments[p].ref, p)
  {
  }

  /** Another refund carries the reference. */
  predicate OtherRefundHas(db: Db, row: RefundId, ref: Ref) {
    exists r :: r in db.refunds && r != row && db.refunds[r].ref == Some(ref)
  }
}
