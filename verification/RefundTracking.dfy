/** Refund rows against their payment: what one idempotency key per payment buys, and exactly when a request under
    another key leaves the worker with a refund it cannot finish. */
module RefundTracking {
  import opened Options
  import opened Schema
  import opened Transactions
  import opened Protocol
  import opened Outcomes
  import opened Invariant
  import opened Preservation
  import opened Evolution
  import opened Reachability

  predicate Tracks(s: PaymentStatus, r: RefundStatus) {
    match r
    case Pending => s == RefundPending
    case Refunded => s == PaymentStatus.Refunded
    case Failed => s !in {HoldPending, HoldFailed, RefundPending, PaymentStatus.Refunded}
  }

  /** Payment p has no refund row, or exactly one: the one its event names, under key k, in step with the payment. */
  predicate OneRefund(db: Db, p: PaymentId, k: Key) {
    p in db.payments && EventKey(Refund, p) in db.outbox ==>
      var payload := db.outbox[EventKey(Refund, p)].payload;
      && payload.RefundPayload? && payload.refund in db.refunds
      && RefundsOf(db.refunds, p) == map[payload.refund := db.refunds[payload.refund]]
      && db.refunds[payload.refund].key == k
      && Tracks(db.payments[p].status, db.refunds[payload.refund].status)
  }

  /** Which refund status a payment status goes with. */
  function Phase(s: PaymentStatus): nat {
    if s == RefundPending then 1 else if s == PaymentStatus.Refunded then 2
    else if s in {HoldPending, HoldFailed} then 3 else 0
  }

  /** A step that moves neither the refund rows nor the refund phase of p. */
  predicate Calm(db: Db, next: Db, p: PaymentId) {
    && p in db.payments && p in next.payments
    && (Phase(next.payments[p].status) == Phase(db.payments[p].status)
        || (Phase(db.payments[p].status) == 3 && Phase(next.payments[p].status) == 0))
    && next.refunds == db.refunds
    && (EventKey(Refund, p) in next.outbox ==> EventKey(Refund, p) in db.outbox)
  }

  lemma CalmKeepsOneRefund(db: Db, next: Db, p: PaymentId, k: Key)
    requires OneRefund(db, p, k) && Calm(db, next, p) && Grows(db, next)
    ensures OneRefund(next, p, k)
  {
  }

  /** A step on the refund r of another payment q. */
  predicate Foreign(db: Db, next: Db, q: PaymentId, r: RefundId, p: PaymentId) {
    && p != q && p in db.payments && p in next.payments && next.payments[p] == db.payments[p]
    && (next.refunds == db.refunds
        || (r in next.refunds && next.refunds == db.refunds[r := next.refunds[r]] && next.refunds[r].payment == q))
    && (r in db.refunds ==> db.refunds[r].payment == q)
    && (EventKey(Refund, p) in next.outbox ==> EventKey(Refund, p) in db.outbox)
  }

  lemma ForeignKeepsOneRefund(db: Db, next: Db, q: PaymentId, r: RefundId, p: PaymentId, k: Key)
    requires OneRefund(db, p, k) && Foreign(db, next, q, r, p) && Grows(db, next)
    ensures OneRefund(next, p, k)
  {
    if EventKey(Refund, p) in next.outbox {
      var own := db.outbox[EventKey(Refund, p)].payload.refund;
      assert own in RefundsOf(db.refunds, p);
      assert own != r;
      assert RefundsOf(next.refunds, p) == RefundsOf(db.refunds, p);
    }
  }

  /** A payment that has just been inserted has no refund event. */
  lemma NewPaymentOneRefund(db: Db, next: Db, p: PaymentId, k: Key)
    requires Core(next) && Grows(db, next) && p !in db.payments
    ensures OneRefund(next, p, k)
  {
    if p in next.payments {
      ViewAt(next, p);
      assert ViewOf(next, p).refund == Get(next.outbox, EventKey(Refund, p));
    }
  }

  // ---------- the steps that move refund rows ----------

  lemma NoEventNoRows(db: Db, p: PaymentId)
    requires Core(db) && p in db.payments && EventKey(Refund, p) !in db.outbox
    ensures RefundsOf(db.refunds, p) == map[]
  {
    ViewAt(db, p);
    assert ViewOf(db, p).refund.None?;
    assert ViewOf(db, p).refunds == RefundsOf(db.refunds, p);
  }

  /** With one key, the row a request reopens is the row its event names; without an event there is no row at all. */
  lemma PriorIsNamed(db: Db, p: PaymentId, key: Key)
    requires Core(db) && p in db.payments && OneRefund(db, p, key)
             && (key != NoKey || EventKey(Refund, p) !in db.outbox)
    ensures var k := EventKey(Refund, p);
            if k in db.outbox then db.outbox[k].payload.RefundPayload?
               && PriorRefund(db, p, key) == Some(db.outbox[k].payload.refund)
            else PriorRefund(db, p, key) == None && RefundsOf(db.refunds, p) == map[]
  {
    var k := EventKey(Refund, p);
    var prior := PriorRefund(db, p, key);
    if k in db.outbox {
      assert db.outbox[k].payload.refund in db.refunds;
      assert db.outbox[k].payload.refund in RefundsOf(db.refunds, p);
    } else {
      if prior.Some? {
        RowMeansEvent(db, p, prior.value);
      }
      NoEventNoRows(db, p);
    }
  }

  /** The row the request works on is the one the event names, and the payment has no other. */
  lemma OnlyRequestedRow(db: Db, p: PaymentId, id: RefundId, key: Key)
    requires Core(db) && p in db.payments && OneRefund(db, p, key)
             && (key != NoKey || EventKey(Refund, p) !in db.outbox)
    ensures var k := EventKey(Refund, p);
            && (forall x :: x in RefundsOf(db.refunds, p) ==> x == RequestedRow(db, p, id, key))
            && (k in db.outbox ==>
                 db.outbox[k].payload.RefundPayload? && db.outbox[k].payload.refund == RequestedRow(db, p, id, key))
  {
    PriorIsNamed(db, p, key);
  }

  lemma RequestKeepsOneRefund(db: Db, j: JobId, p: PaymentId, owner: UserId, id: RefundId, key: Key, now: int)
    requires Core(db) && OneRefund(db, p, key) && (key != NoKey || EventKey(Refund, p) !in db.outbox)
    requires Refundable(db, j, p, id, key)
    ensures OneRefund(RequestRefundOf(db, j, p, owner, id, key, now), p, key)
  {
    OnlyRequestedRow(db, p, id, key);
    RequestShape(db, j, p, owner, id, key, now);
    RequestedRowFits(db, p, id, key, now);
    RequestedEventFits(db, j, p, owner, id, key, now);
    RequestKeepsRow(db, RequestRefundOf(db, j, p, owner, id, key, now), p, RequestedRow(db, p, id, key), key);
  }

  lemma RequestKeepsRow(db: Db, next: Db, p: PaymentId, r: RefundId, key: Key)
    requires p in next.payments && next.payments[p].status == RefundPending
    requires r in next.refunds && next.refunds == db.refunds[r := next.refunds[r]] && next.refunds[r].payment == p
    requires next.refunds[r].key == key && next.refunds[r].status == RefundStatus.Pending
    requires EventKey(Refund, p) in next.outbox && next.outbox[EventKey(Refund, p)].payload.RefundPayload?
    requires next.outbox[EventKey(Refund, p)].payload.refund == r
    requires forall x :: x in RefundsOf(db.refunds, p) ==> x == r
    ensures OneRefund(next, p, key)
  {
    assert forall x :: x in RefundsOf(next.refunds, p) && x != r ==> x in RefundsOf(db.refunds, p);
    assert RefundsOf(next.refunds, p) == map[r := next.refunds[r]];
  }

  lemma RequestElsewhere(db: Db, j: JobId, q: PaymentId, owner: UserId, id: RefundId, key: Key, now: int, p: PaymentId,
      k: Key)
    requires Core(db) && OneRefund(db, p, k) && p in db.payments && p != q && Refundable(db, j, q, id, key)
    ensures OneRefund(RequestRefundOf(db, j, q, owner, id, key, now), p, k)
  {
    RequestShape(db, j, q, owner, id, key, now);
    RequestedRowFits(db, q, id, key, now);
    ForeignKeeps(db, RequestRefundOf(db, j, q, owner, id, key, now), q, RequestedRow(db, q, id, key), p, k);
  }

  /** FinishRefund of payment q, after the event of q has been marked or not. */
  lemma FinishKeepsOneRefund(db: Db, db1: Db, q: PaymentId, r: RefundId, ref: Option<Ref>, reference: Reference,
      p: PaymentId, k: Key)
    requires OneRefund(db, p, k) && p in db.payments && q in db.payments && db.payments[q].status == RefundPending
    requires PendingRefund(db, q, r) && Marked(db, db1, EventKey(Refund, q)) && EventKey(Refund, q) in db.outbox
    requires Grows(db, FinishRefund(db1, q, r, ref, reference))
    ensures OneRefund(FinishRefund(db1, q, r, ref, reference), p, k)
  {
    var next := FinishRefund(db1, q, r, ref, reference);
    if p != q {
      ForeignKeepsOneRefund(db, next, q, r, p, k);
    } else {
      FinishOwn(db, next, p, r, k);
    }
  }

  lemma FinishOwn(db: Db, next: Db, p: PaymentId, r: RefundId, k: Key)
    requires OneRefund(db, p, k) && p in db.payments && EventKey(Refund, p) in db.outbox && PendingRefund(db, p, r)
    requires p in next.payments && next.payments[p].status == PaymentStatus.Refunded
    requires r in next.refunds && next.refunds == db.refunds[r := next.refunds[r]]
    requires next.refunds[r] == db.refunds[r].(status := RefundStatus.Refunded, ref := next.refunds[r].ref)
    requires EventKey(Refund, p) in next.outbox
             && next.outbox[EventKey(Refund, p)].payload == db.outbox[EventKey(Refund, p)].payload
    ensures OneRefund(next, p, k)
  {
    assert r in RefundsOf(db.refunds, p);
    assert RefundsOf(next.refunds, p) == RefundsOf(db.refunds, p)[r := next.refunds[r]];
  }

  lemma CompensateKeepsOneRefund(db: Db, db1: Db, q: EventKey, p: PaymentId, k: Key)
    requires Core(db) && OneRefund(db, p, k) && p in db.payments && q in db.outbox
    requires q in db1.outbox && db1.outbox[q].payload == db.outbox[q].payload
             && db1 == db.(outbox := db.outbox[q := db1.outbox[q]])
    requires !Dead(Some(db.outbox[q]))
    ensures OneRefund(Compensate(db1, q), p, k)
  {
    assert ViewOk(q.payment, ViewOf(db, q.payment)) by { ViewAt(db, q.payment); }
    EventInView(db, q);
    if q.kind == Refund {
      CompensateRefundRow(db, db1, q, p, k);
    } else {
      CompensateElse(db, db1, q, p, k);
    }
  }

  lemma CompensateElse(db: Db, db1: Db, q: EventKey, p: PaymentId, k: Key)
    requires OneRefund(db, p, k) && p in db.payments && q in db.outbox && q.kind != Refund
    requires q in db1.outbox && db1 == db.(outbox := db.outbox[q := db1.outbox[q]])
    ensures OneRefund(Compensate(db1, q), p, k)
  {
    assert Compensate(db1, q).refunds == db.refunds;
  }

  lemma CompensateRefundRow(db: Db, db1: Db, q: EventKey, p: PaymentId, k: Key)
    requires OneRefund(db, p, k) && p in db.payments && q in db.outbox && q.kind == Refund && q.payment in db.payments
    requires q in db1.outbox && db1.outbox[q].payload == db.outbox[q].payload
             && db1 == db.(outbox := db.outbox[q := db1.outbox[q]])
    requires db.outbox[q].payload.RefundPayload? && db.outbox[q].payload.refund in RefundsOf(db.refunds, q.payment)
    ensures OneRefund(Compensate(db1, q), p, k)
  {
    var next := Compensate(db1, q);
    var r := db.outbox[q].payload.refund;
    if q.payment != p {
      assert q != EventKey(Refund, p);
      ForeignKeeps(db, next, q.payment, r, p, k);
    } else {
      assert q == EventKey(Refund, p);
      assert RefundsOf(next.refunds, p) == RefundsOf(db.refunds, p)[r := next.refunds[r]];
    }
  }

  lemma ForeignKeeps(db: Db, next: Db, q: PaymentId, r: RefundId, p: PaymentId, k: Key)
    requires OneRefund(db, p, k) && Foreign(db, next, q, r, p)
    requires Get(next.outbox, EventKey(Refund, p)) == Get(db.outbox, EventKey(Refund, p))
    ensures OneRefund(next, p, k)
  {
    if EventKey(Refund, p) in next.outbox {
      var own := db.outbox[EventKey(Refund, p)].payload.refund;
      assert own in RefundsOf(db.refunds, p);
      assert own != r;
      assert RefundsOf(next.refunds, p) == RefundsOf(db.refunds, p);
    }
  }

  lemma FailKeepsOneRefund(db: Db, q: EventKey, token: nat, maxAttempts: nat, now: int, jitter: nat, p: PaymentId,
      k: Key)
    requires Core(db) && OneRefund(db, p, k) && p in db.payments
    ensures OneRefund(FailEvent(db, q, Some(token), maxAttempts, now, jitter).0, p, k)
  {
    if FailReply(db, q, Some(token), maxAttempts) in {RetryLater, Terminal} {
      FailWithKeepsOneRefund(db, q, AfterFailure(db.outbox[q], maxAttempts, now, jitter), p, k);
    }
  }

  lemma FailWithKeepsOneRefund(db: Db, q: EventKey, failed: Event, p: PaymentId, k: Key)
    requires Core(db) && OneRefund(db, p, k) && p in db.payments && q in db.outbox && db.outbox[q].token.Some?
    requires failed.payload == db.outbox[q].payload
    ensures OneRefund(FailWith(db, q, failed), p, k)
  {
    if failed.status == EventStatus.Failed {
      CompensateKeepsOneRefund(db, db.(outbox := db.outbox[q := failed]), q, p, k);
    }
  }

  lemma CommitKeepsOneRefund(db: Db, next: Db, t: Ticket, ref: Ref, p: PaymentId, k: Key)
    requires Core(db) && OneRefund(db, p, k) && p in db.payments && t.event in db.outbox
             && t.payload == db.outbox[t.event].payload
    requires TicketCommit(db, next, t, ref)
    ensures OneRefund(next, p, k)
  {
    PayloadFitsKey(db, t.event);
    TicketGrows(db, next, t, ref);
    match t.payload {
      case HoldPayload(_, _, q, _, _, _, _) => HoldIsCalm(db, next, t.event, q, ref, p);
      CalmKeepsOneRefund(db, next, p, k);
      case ReleasePayload(_, _, q, _, _) => ReleaseIsCalm(db, next, t.event, q, p); CalmKeepsOneRefund(db, next, p, k);
      case RefundPayload(_, _, q, r, _, _) => RefundCommitKeeps(db, next, q, r, ref, p, k);
    }
  }

  lemma RefundCommitKeeps(db: Db, next: Db, q: PaymentId, r: RefundId, ref: Ref, p: PaymentId, k: Key)
    requires Core(db) && OneRefund(db, p, k) && p in db.payments && Grows(db, next)
    requires RefundCommit(db, next, EventKey(Refund, q), q, r, ref)
    ensures OneRefund(next, p, k)
  {
    var e := EventKey(Refund, q);
    if OnlyDone(db, next, e, q, PaymentStatus.Refunded) {
      DoneIsCalm(db, e, p);
      CalmKeepsOneRefund(db, next, p, k);
    } else {
      FinishKeepsOneRefund(db, DoneEvent(db, e), q, r, Some(ref), PaymentRefund, p, k);
    }
  }

  /** Refund rows and refund events are untouched, and only payment q moves, within its refund phase. */
  predicate Elsewhere(db: Db, next: Db, q: PaymentId) {
    && next.refunds == db.refunds && q in db.payments && q in next.payments
    && next.payments == db.payments[q := next.payments[q]]
    && (Phase(next.payments[q].status) == Phase(db.payments[q].status)
        || (Phase(db.payments[q].status) == 3 && Phase(next.payments[q].status) == 0))
    && next.outbox.Keys <= db.outbox.Keys + {EventKey(Release, q)}
  }

  lemma ElsewhereIsCalm(db: Db, next: Db, q: PaymentId, p: PaymentId)
    requires Elsewhere(db, next, q) && p in db.payments
    ensures Calm(db, next, p)
  {
  }

  lemma FinishReleaseIsCalm(db: Db, db1: Db, q: PaymentId, ref: Ref, release: Reference, payout: Reference,
      p: PaymentId)
    requires q in db.payments && db.payments[q].status in {ReleasePending, ReleaseFailed} && p in db.payments
    requires db1 == db.(outbox := db1.outbox, webhooks := db1.webhooks) && db1.outbox.Keys == db.outbox.Keys
    ensures Calm(db, FinishRelease(db1, q, ref, release, payout), p)
  {
    ElsewhereIsCalm(db, FinishRelease(db1, q, ref, release, payout), q, p);
  }

  lemma DoneIsCalm(db: Db, k: EventKey, p: PaymentId)
    requires k in db.outbox && p in db.payments
    ensures Calm(db, DoneEvent(db, k), p)
  {
  }

  lemma ConfirmIsCalm(db: Db, db1: Db, q: PaymentId, ref: Ref, p: PaymentId)
    requires p in db.payments && q in db.payments && db.payments[q].status == HoldPending
    requires db1 == db.(outbox := db1.outbox, webhooks := db1.webhooks) && db1.outbox.Keys == db.outbox.Keys
    ensures Calm(db, Confirm(db1, q, ref), p)
  {
  }

  lemma LoggedIsCalm(db: Db, id: WebhookId, p: PaymentId)
    requires p in db.payments
    ensures Calm(db, Logged(db, id), p)
  {
  }

  lemma HoldIsCalm(db: Db, next: Db, k: EventKey, q: PaymentId, ref: Ref, p: PaymentId)
    requires HoldCommit(db, next, k, q, ref) && p in db.payments
    ensures Calm(db, next, p)
  {
    if OnlyDone(db, next, k, q, Held) { DoneIsCalm(db, k, p); } else { ConfirmIsCalm(db, DoneEvent(db, k), q, ref, p); }
  }

  lemma ReleaseIsCalm(db: Db, next: Db, k: EventKey, q: PaymentId, p: PaymentId)
    requires ReleaseCommit(db, next, k, q) && p in db.payments
    ensures Calm(db, next, p)
  {
    if OnlyDone(db, next, k, q, Released) { DoneIsCalm(db, k, p); }
    else { FinishReleaseIsCalm(db, DoneEvent(db, k), q, db.payments[q].ref, PaymentRelease, PaymentPayout, p); }
  }

  lemma RefundWebhookKeepsOneRefund(db: Db, next: Db, id: WebhookId, q: PaymentId, ref: Option<Ref>, row: RefundId,
      p: PaymentId, k: Key)
    requires Core(db) && OneRefund(db, p, k) && p in db.payments && q in db.payments
             && db.payments[q].status == RefundPending
    requires PendingRefund(db, q, row) && Grows(db, next)
    requires next == FinishRefund(Logged(db, id), q, row, ref, PaymentWebhook)
    ensures OneRefund(next, p, k)
  {
    assert EventKey(Refund, q) in db.outbox by { ViewAt(db, q); }
    MarkedByWebhook(db, id, EventKey(Refund, q));
    FinishKeepsOneRefund(db, Logged(db, id), q, row, ref, PaymentWebhook, p, k);
  }

  lemma WebhookKeepsOneRefund(db: Db, next: Db, id: WebhookId, q: PaymentId, ref: Ref, row: RefundId, p: PaymentId,
      k: Key)
    requires Core(db) && OneRefund(db, p, k) && p in db.payments && WebhookCommit(db, next, id, q, ref, row)
    ensures OneRefund(next, p, k)
  {
    WebhookGrows(db, next, id, q, ref, row);
    if RefundedByHook(db, next, id, q, ref, row) {
      RefundWebhookKeepsOneRefund(db, next, id, q, RefundedRef(db, row, ref), row, p, k);
    } else {
      OtherWebhookIsCalm(db, next, id, q, ref, row, p);
      CalmKeepsOneRefund(db, next, p, k);
    }
  }

  lemma OtherWebhookIsCalm(db: Db, next: Db, id: WebhookId, q: PaymentId, ref: Ref, row: RefundId, p: PaymentId)
    requires WebhookCommit(db, next, id, q, ref, row) && !RefundedByHook(db, next, id, q, ref, row) && p in db.payments
    ensures Calm(db, next, p)
  {
    if HeldByHook(db, next, id, q, ref) {
      ConfirmIsCalm(db, Logged(db, id), q, ref, p);
    } else if ReleasedByHook(db, next, id, q, ref) {
      FinishReleaseIsCalm(db, Logged(db, id), q, SettledRef(db.payments[q], ref), PaymentWebhook, PaymentWebhook, p);
    } else {
      LoggedIsCalm(db, id, p);
    }
  }

  lemma FundIsCalm(db: Db, next: Db, j: JobId, payer: UserId, payee: UserId, offer: Option<OfferId>, amount: nat,
      id: PaymentId, key: Key, currency: Currency, now: int, p: PaymentId)
    requires FundCommit(db, next, j, payer, payee, offer, amount, id, key, currency, now) && p in db.payments
    ensures Calm(db, next, p)
  {
    if Reopened(db, next, j, payer, key, currency, now) {
      RetryIsCalm(db, j, payer, key, currency, now, p);
    } else {
      InsertIsCalm(db, NewPayment(db.jobs[j], j, payer, payee, amount, id, key, currency), id, offer, now, p);
    }
  }

  lemma RetryIsCalm(db: Db, j: JobId, payer: UserId, key: Key, currency: Currency, now: int, p: PaymentId)
    requires Retryable(db, j, key) && p in db.payments
    ensures Calm(db, RetryHold(db, j, payer, key, currency, now), p)
  {
    var q := db.paymentByJob[j];
    var newKey := RetryKey(db.payments[q], key);
    ReopenIsCalm(db, q, newKey, RetryPayload(j, payer, q, db.payments[q], newKey, currency), now, p);
  }

  lemma InsertIsCalm(db: Db, pay: Payment, id: PaymentId, offer: Option<OfferId>, now: int, p: PaymentId)
    requires pay.job in db.jobs && id !in db.payments && p in db.payments
    ensures Calm(db, InsertPayment(db, pay, id, offer, now), p)
  {
  }

  lemma ReopenIsCalm(db: Db, q: PaymentId, newKey: Key, rebuilt: Payload, now: int, p: PaymentId)
    requires q in db.payments && db.payments[q].status == HoldFailed && p in db.payments
    ensures Calm(db, ReopenHold(db, q, newKey, rebuilt, now), p)
  {
  }

  lemma FundStepIsCalm(db: Db, s: PayStep, p: PaymentId)
    requires s.Fund? && p in db.payments
    ensures Calm(db, NextPay(db, s), p)
  {
    FundCommits(db, s.job, s.payer, s.payee, s.chosen, s.amount, s.payment, s.key, s.currency, s.now);
    if NextPay(db, s) != db {
      FundIsCalm(db, NextPay(db, s), s.job, s.payer, s.payee, s.chosen, s.amount, s.payment, s.key, s.currency, s.now,
                 p);
    }
  }

  lemma OtherPayIsCalm(db: Db, s: PayStep, p: PaymentId)
    requires (s.Fund? || s.Accept? || s.RequestRelease?) && p in db.payments
    ensures Calm(db, NextPay(db, s), p)
  {
    if s.Fund? {
      FundStepIsCalm(db, s, p);
    } else if NextPay(db, s) != db {
      match s {
        case Accept(j) => ElsewhereIsCalm(db, CompleteJob(db, j, db.paymentByJob[j]), db.paymentByJob[j], p);
        case RequestRelease(j, owner, q, now) => ElsewhereIsCalm(db, QueueRelease(db, j, owner, q, now), q, p);
      }
    }
  }

  lemma OtherWorkIsCalm(db: Db, s: WorkStep, p: PaymentId)
    requires (s.ClaimStep? || s.CallProvider?) && p in db.payments
    ensures Calm(db, NextWork(db, s), p)
  {
    if s.ClaimStep? && s.event in db.outbox {
      ClaimIsCalm(db, s.event, s.now, p);
    }
  }

  lemma ClaimIsCalm(db: Db, k: EventKey, now: int, p: PaymentId)
    requires k in db.outbox && p in db.payments
    ensures Calm(db, Claim(db, k, now), p)
  {
    assert Claim(db, k, now).payments == db.payments && Claim(db, k, now).refunds == db.refunds;
  }

  // ---------- runs ----------

  /** Every refund request for p in the run carries the key k. */
  predicate KeyedRequests(steps: seq<Step>, p: PaymentId, k: Key) {
    forall i :: 0 <= i < |steps| && steps[i].Pay? && steps[i].pay.RequestRefund? && steps[i].pay.payment == p ==>
        steps[i].pay.key == k
  }

  lemma RefundStepKeeps(db: Db, s: PayStep, p: PaymentId, k: Key)
    requires Core(db) && p in db.payments && OneRefund(db, p, k)
    requires s.RequestRefund? && (s.payment == p ==> s.key == k != NoKey)
    ensures OneRefund(NextPay(db, s), p, k)
  {
    RequestCommits(db, s.job, s.payment, s.owner, s.amount, s.refund, s.key, s.now);
    if NextPay(db, s) != db {
      if p == s.payment { RequestKeepsOneRefund(db, s.job, p, s.owner, s.refund, k, s.now); }
      else { RequestElsewhere(db, s.job, s.payment, s.owner, s.refund, s.key, s.now, p, k); }
    }
  }

  lemma WebhookStepKeeps(db: Db, s: PayStep, p: PaymentId, k: Key)
    requires Core(db) && p in db.payments && OneRefund(db, p, k) && s.Webhook?
    ensures OneRefund(NextPay(db, s), p, k)
  {
    if !Impossible(db, s) {
      WebhookCommits(db, s.id, s.kind, s.payment, s.ref, s.row);
      if NextPay(db, s) != db {
        WebhookKeepsOneRefund(db, NextPay(db, s), s.id, s.payment, s.ref, s.row, p, k);
      }
    }
  }

  lemma PayKeepsOneRefund(db: Db, s: PayStep, p: PaymentId, k: Key)
    requires Core(db) && p in db.payments && OneRefund(db, p, k)
    requires s.RequestRefund? && s.payment == p ==> s.key == k != NoKey
    ensures OneRefund(NextPay(db, s), p, k)
  {
    match s {
      case RequestRefund(_, _, _, _, _, _, _) => RefundStepKeeps(db, s, p, k);
      case Webhook(_, _, _, _, _) => WebhookStepKeeps(db, s, p, k);
      case _ =>
        OtherPayIsCalm(db, s, p);
        PayGrows(db, s);
        CalmKeepsOneRefund(db, NextPay(db, s), p, k);
    }
  }

  lemma CompleteKeepsOneRefund(db: Db, t: Ticket, ref: Ref, p: PaymentId, k: Key)
    requires Core(db) && OneRefund(db, p, k) && p in db.payments && t.event in db.outbox
             && t.payload == db.outbox[t.event].payload
    ensures OneRefund(CompleteTicket(db, t, ref).0, p, k)
  {
    TicketCommits(db, t, ref);
    if CompleteTicket(db, t, ref).0 != db {
      CommitKeepsOneRefund(db, CompleteTicket(db, t, ref).0, t, ref, p, k);
    }
  }

  lemma WorkKeepsOneRefund(w: World, s: WorkStep, p: PaymentId, k: Key)
    requires WorldOk(w) && Enabled(w, Work(s)) && p in w.db.payments && OneRefund(w.db, p, k)
    ensures OneRefund(NextWork(w.db, s), p, k)
  {
    match s {
      case Complete(t, ref) => CompleteKeepsOneRefund(w.db, t, ref, p, k);
      case Fail(t, maxAttempts, now, jitter) =>
        FailKeepsOneRefund(w.db, t.event, t.token, maxAttempts, now, jitter, p, k);
      case _ =>
        OtherWorkIsCalm(w.db, s, p);
        WorkGrows(w.db, s);
        CalmKeepsOneRefund(w.db, NextWork(w.db, s), p, k);
    }
  }

  lemma NextKeepsOneRefund(w: World, s: Step, p: PaymentId, k: Key)
    requires WorldOk(w) && OneRefund(w.db, p, k)
    requires s.Pay? && s.pay.RequestRefund? && s.pay.payment == p ==> s.pay.key == k != NoKey
    ensures OneRefund(Next(w, s).db, p, k)
  {
    if Enabled(w, s) {
      if p !in w.db.payments {
        NextGrows(w.db, s);
        NextKeepsCore(w, s);
        NewPaymentOneRefund(w.db, NextDb(w.db, s), p, k);
      } else {
        match s {
          case Pay(m) => PayKeepsOneRefund(w.db, m, p, k);
          case Work(x) => WorkKeepsOneRefund(w, x, p, k);
          case Board(b) => BoardBystands(w.db, b); BystandersGrow(w.db, NextBoard(w.db, b));
          CalmKeepsOneRefund(w.db, NextBoard(w.db, b), p, k);
          case Recruit(r) => RecruitBystands(w.db, r); BystandersGrow(w.db, NextRecruit(w.db, r));
          CalmKeepsOneRefund(w.db, NextRecruit(w.db, r), p, k);
        }
      }
    }
  }

  lemma {:induction false} RunKeepsOneRefund(steps: seq<Step>, p: PaymentId, k: Key)
    requires KeyedRequests(steps, p, k) && k != NoKey
    ensures OneRefund(Run(INITIAL, steps).db, p, k)
  {
    if steps != [] {
      var front := steps[..|steps|-1];
      assert KeyedRequests(front, p, k);
      RunKeepsOneRefund(front, p, k);
      ReachableWorldOk(front);
      NextKeepsOneRefund(Run(INITIAL, front), steps[|steps|-1], p, k);
    }
  }

  /** With one non-empty key per payment: at most one refund row, and row and payment move together through every
      retry. */
  lemma RefundRowFollowsPayment(steps: seq<Step>, p: PaymentId, k: Key, r: RefundId, s: RefundId)
    requires KeyedRequests(steps, p, k) && k != NoKey
    requires r in Run(INITIAL, steps).db.refunds && Run(INITIAL, steps).db.refunds[r].payment == p
    requires s in Run(INITIAL, steps).db.refunds && Run(INITIAL, steps).db.refunds[s].payment == p
    ensures var db := Run(INITIAL, steps).db;
            && r == s && p in db.payments
            && (db.refunds[r].status == RefundStatus.Pending <==> db.payments[p].status == RefundPending)
            && (db.refunds[r].status == RefundStatus.Refunded <==> db.payments[p].status == PaymentStatus.Refunded)
            && (db.refunds[r].status == RefundStatus.Failed ==>
                 db.payments[p].status in {Held, ReleasePending, ReleaseFailed, Released})
  {
    var db := Run(INITIAL, steps).db;
    ReachableWorldOk(steps);
    RunKeepsOneRefund(steps, p, k);
    ViewAt(db, p);
    assert r in RefundsOf(db.refunds, p) && s in RefundsOf(db.refunds, p);
    assert ViewOf(db, p).refund == Get(db.outbox, EventKey(Refund, p));
  }

  // ---------- requests under another key ----------

  /** The worker's commit of the refund the event names, under the lease the event carries. */
  function FinishNamedRefund(db: Db, p: PaymentId, ref: Ref): (Db, Reply)
    requires EventKey(Refund, p) in db.outbox && db.outbox[EventKey(Refund, p)].payload.RefundPayload?
  {
    var k := EventKey(Refund, p);
    var x := db.outbox[k].payload;
    CompleteRefund(db, k, x.job, p, x.refund, ref, db.outbox[k].token)
  }

  /** What a caller can check before asking: no refund was ever queued for the payment, or this key reopens the row that
      was. */
  predicate ReopensNamedRow(db: Db, p: PaymentId, key: Key) {
    var k := EventKey(Refund, p);
    k !in db.outbox
    || (db.outbox[k].payload.RefundPayload? && PriorRefund(db, p, key) == Some(db.outbox[k].payload.refund))
  }

  /** An accepted refund request leaves the worker a refund it can finish if and only if the request reopens the row the
      event names: the event keeps the refund id of the first request for ever. */
  lemma WorkerCanFinishIff(db: Db, j: JobId, p: PaymentId, owner: UserId, amount: nat, id: RefundId, key: Key, now: int,
      ref: Ref)
    requires Core(db) && CreateRefund(db, j, p, owner, amount, id, key, now).1 == Queued
    requires forall r :: r in db.refunds ==> db.refunds[r].ref != Some(ref)
    ensures var next := CreateRefund(db, j, p, owner, amount, id, key, now).0;
            && EventKey(Refund, p) in next.outbox && next.outbox[EventKey(Refund, p)].payload.RefundPayload?
            && (FinishNamedRefund(next, p, ref).1 == Committed <==> ReopensNamedRow(db, p, key))
            && (!ReopensNamedRow(db, p, key) ==> FinishNamedRefund(next, p, ref) == (next, Refused(WrongRefundState)))
  {
    var next := RequestRefundOf(db, j, p, owner, id, key, now);
    assert Refundable(db, j, p, id, key);
    NamedRow(db, j, p, owner, id, key, now);
    RequestIsFinishable(db, j, p, owner, id, key, now, ref);
    NamedRefundFinishes(next, p, ref);
  }

  lemma RequestIsFinishable(db: Db, j: JobId, p: PaymentId, owner: UserId, id: RefundId, key: Key, now: int, ref: Ref)
    requires Core(db) && Refundable(db, j, p, id, key) && forall r :: r in db.refunds ==> db.refunds[r].ref != Some(ref)
    ensures Finishable(RequestRefundOf(db, j, p, owner, id, key, now), p, ref)
  {
    var next := RequestRefundOf(db, j, p, owner, id, key, now);
    RequestShape(db, j, p, owner, id, key, now);
    assert Core(next) by { RequestKeepsCore(db, j, p, owner, id, key, now); }
    EventOfPayment(next, p);
    RequestWritesNoRef(db, p, RequestedRow(db, p, id, key), key, now, ref);
  }

  lemma RequestWritesNoRef(db: Db, p: PaymentId, r: RefundId, key: Key, now: int, ref: Ref)
    requires p in db.payments && forall x :: x in db.refunds ==> db.refunds[x].ref != Some(ref)
    ensures forall x :: x in WriteRow(db, p, r, key, now).refunds ==>
              WriteRow(db, p, r, key, now).refunds[x].ref != Some(ref)
  {
  }

  lemma EventOfPayment(db: Db, p: PaymentId)
    requires Core(db) && p in db.payments && EventKey(Refund, p) in db.outbox
    ensures db.payments[p].job in db.jobs && FeesOk(db.payments[p].fees)
    ensures RefundFits(p, db.payments[p], db.outbox[EventKey(Refund, p)].payload)
    ensures db.outbox[EventKey(Refund, p)].payload.refund in RefundsOf(db.refunds, p)
  {
    ViewAt(db, p);
    assert ViewOf(db, p).refund == Get(db.outbox, EventKey(Refund, p));
  }

  lemma NamedRow(db: Db, j: JobId, p: PaymentId, owner: UserId, id: RefundId, key: Key, now: int)
    requires Core(db) && Refundable(db, j, p, id, key)
    ensures var next := RequestRefundOf(db, j, p, owner, id, key, now);
            var k := EventKey(Refund, p);
            && k in next.outbox && next.outbox[k].payload.RefundPayload?
            && var named := next.outbox[k].payload.refund;
               named in next.refunds
               && (next.refunds[named].status == RefundStatus.Pending <==> ReopensNamedRow(db, p, key))
  {
    var k := EventKey(Refund, p);
    RequestShape(db, j, p, owner, id, key, now);
    RequestedRowFits(db, p, id, key, now);
    RequestedEventFits(db, j, p, owner, id, key, now);
    if k in db.outbox {
      NamedHasFailed(db, p);
    }
  }

  lemma NamedHasFailed(db: Db, p: PaymentId)
    requires Core(db) && p in db.payments && db.payments[p].status == Held && EventKey(Refund, p) in db.outbox
    ensures var payload := db.outbox[EventKey(Refund, p)].payload;
            && payload.RefundPayload? && payload.refund in db.refunds
            && db.refunds[payload.refund].payment == p && db.refunds[payload.refund].status == RefundStatus.Failed
  {
    ViewAt(db, p);
    assert ViewOf(db, p).refund == Get(db.outbox, EventKey(Refund, p));
    assert db.outbox[EventKey(Refund, p)].payload.refund in ViewOf(db, p).refunds;
  }

  /** The guards of the worker's commit hold, up to the status of the row the event names. */
  predicate Finishable(db: Db, p: PaymentId, ref: Ref) {
    && p in db.payments && db.payments[p].status == RefundPending && db.payments[p].job in db.jobs
    && FeesOk(db.payments[p].fees)
    && EventKey(Refund, p) in db.outbox
    && RefundFits(p, db.payments[p], db.outbox[EventKey(Refund, p)].payload)
    && db.outbox[EventKey(Refund, p)].payload.refund in RefundsOf(db.refunds, p)
    && forall r :: r in db.refunds ==> db.refunds[r].ref != Some(ref)
  }

  lemma NamedRefundFinishes(db: Db, p: PaymentId, ref: Ref)
    requires Finishable(db, p, ref)
    ensures var named := db.outbox[EventKey(Refund, p)].payload.refund;
            if db.refunds[named].status == RefundStatus.Pending then FinishNamedRefund(db, p, ref).1 == Committed
            else FinishNamedRefund(db, p, ref) == (db, Refused(WrongRefundState))
  {
    FeesPostable(db.payments[p].fees);
  }

  // ---------- the exact condition for whole runs ----------

  /** Whatever the keys: payment p has no refund row, or exactly one, the one its event names, in step with the
      payment. */
  predicate Tracked(db: Db, p: PaymentId) { OneRefund(db, p, NamedKey(db, p)) }

  function NamedKey(db: Db, p: PaymentId): Key {
    var k := EventKey(Refund, p);
    if k in db.outbox && db.outbox[k].payload.RefundPayload? && db.outbox[k].payload.refund in db.refunds
    then db.refunds[db.outbox[k].payload.refund].key else NoKey
  }

  /** The step is no accepted refund request for p, or one that is the first or reopens the row the event names. */
  predicate Reopens(db: Db, s: Step, p: PaymentId) {
    (s.Pay? && s.pay.RequestRefund? && s.pay.payment == p
     && RefundReply(db, s.pay.job, p, s.pay.owner, s.pay.amount, s.pay.refund, s.pay.key) == Queued)
    ==> ReopensNamedRow(db, p, s.pay.key)
  }

  lemma ReopeningKeepsTracked(db: Db, j: JobId, p: PaymentId, owner: UserId, id: RefundId, key: Key, now: int)
    requires Core(db) && Tracked(db, p) && Refundable(db, j, p, id, key) && ReopensNamedRow(db, p, key)
    ensures Tracked(RequestRefundOf(db, j, p, owner, id, key, now), p)
  {
    assert OneRefund(db, p, key);
    RequestKeepsOneRefund(db, j, p, owner, id, key, now);
  }

  lemma OtherKeyLosesTrack(db: Db, j: JobId, p: PaymentId, owner: UserId, id: RefundId, key: Key, now: int)
    requires Core(db) && Refundable(db, j, p, id, key) && !ReopensNamedRow(db, p, key)
    ensures !Tracked(RequestRefundOf(db, j, p, owner, id, key, now), p)
  {
    NamedRow(db, j, p, owner, id, key, now);
    RequestShape(db, j, p, owner, id, key, now);
  }

  lemma RequestTracksIff(db: Db, s: PayStep, p: PaymentId)
    requires Core(db) && Tracked(db, p) && s.RequestRefund? && s.payment == p
    ensures Tracked(NextPay(db, s), p) <==> Reopens(db, Pay(s), p)
  {
    if RefundReply(db, s.job, p, s.owner, s.amount, s.refund, s.key) == Queued {
      if ReopensNamedRow(db, p, s.key) {
        ReopeningKeepsTracked(db, s.job, p, s.owner, s.refund, s.key, s.now);
      } else {
        OtherKeyLosesTrack(db, s.job, p, s.owner, s.refund, s.key, s.now);
      }
    }
  }

  lemma NextTracksIff(w: World, s: Step, p: PaymentId)
    requires WorldOk(w) && Tracked(w.db, p)
    ensures Tracked(Next(w, s).db, p) <==> Reopens(w.db, s, p)
  {
    if s.Pay? && s.pay.RequestRefund? && s.pay.payment == p {
      RequestTracksIff(w.db, s.pay, p);
    } else {
      NextKeepsOneRefund(w, s, p, NamedKey(w.db, p));
    }
  }

  ghost predicate AlwaysTracked(steps: seq<Step>, p: PaymentId) {
    forall i {:trigger steps[..i]} :: 0 <= i <= |steps| ==> Tracked(Run(INITIAL, steps[..i]).db, p)
  }

  predicate AllReopen(steps: seq<Step>, p: PaymentId) {
    forall i {:trigger steps[i]} :: 0 <= i < |steps| ==> Reopens(Run(INITIAL, steps[..i]).db, steps[i], p)
  }

  /** In any run refund row and payment move together all the way if and only if every accepted refund request is the
      first one or reopens the row the event names, as a request under the same non-empty key does. */
  lemma TrackingIff(steps: seq<Step>, p: PaymentId)
    ensures AlwaysTracked(steps, p) <==> AllReopen(steps, p)
  {
    var holds := (i: nat) => i <= |steps| && Tracked(Run(INITIAL, steps[..i]).db, p);
    var good := (i: nat) => i < |steps| && Reopens(Run(INITIAL, steps[..i]).db, steps[i], p);
    assert holds(0) by {
      assert steps[..0] == [];
    }
    forall i: nat | i < |steps| && holds(i) ensures holds(i + 1) <==> good(i) {
      RunPrefix(steps, i);
      ReachableWorldOk(steps[..i]);
      NextTracksIff(Run(INITIAL, steps[..i]), steps[i], p);
    }
    AllAlongIff(holds, good, |steps|);
    assert forall i: nat :: i <= |steps| ==> (holds(i) <==> Tracked(Run(INITIAL, steps[..i]).db, p));
    assert forall i: nat :: i < |steps| ==> (good(i) <==> Reopens(Run(INITIAL, steps[..i]).db, steps[i], p));
  }
}
