/** The larger transactions either leave the tables as they were or commit one of a few complete updates. */
module Outcomes {
  import opened Options
  import opened Schema
  import opened Transactions
  import opened Protocol

  // ---------- funding and refund requests ----------

  /** A failed hold is queued again. */
  predicate Reopened(db: Db, next: Db, j: JobId, payer: UserId, key: Key, currency: Currency, now: int) {
    Retryable(db, j, key) && next == RetryHold(db, j, payer, key, currency, now)
  }

  /** A payment is inserted. */
  predicate Inserted(db: Db, next: Db, j: JobId, payer: UserId, payee: UserId, offer: Option<OfferId>, amount: nat,
      id: PaymentId, key: Key, currency: Currency, now: int)
  {
    && Insertable(db, j, payer, amount, id, key)
    && next == InsertPayment(db, NewPayment(db.jobs[j], j, payer, payee, amount, id, key, currency), id, offer, now)
  }

  predicate FundCommit(db: Db, next: Db, j: JobId, payer: UserId, payee: UserId, offer: Option<OfferId>, amount: nat,
      id: PaymentId, key: Key, currency: Currency, now: int)
  {
    Reopened(db, next, j, payer, key, currency, now)
    || Inserted(db, next, j, payer, payee, offer, amount, id, key, currency, now)
  }

  lemma FundCommits(db: Db, j: JobId, payer: UserId, payee: UserId, offer: Option<OfferId>, amount: nat, id: PaymentId,
      key: Key, currency: Currency, now: int)
    ensures var next := FundJob(db, j, payer, payee, offer, amount, id, key, currency, now).0;
            next == db || FundCommit(db, next, j, payer, payee, offer, amount, id, key, currency, now)
  {
  }

  predicate RefundQueued(db: Db, next: Db, j: JobId, p: PaymentId, owner: UserId, id: RefundId, key: Key, now: int) {
    Refundable(db, j, p, id, key) && next == RequestRefundOf(db, j, p, owner, id, key, now)
  }

  lemma RequestCommits(db: Db, j: JobId, p: PaymentId, owner: UserId, amount: nat, id: RefundId, key: Key, now: int)
    ensures var next := CreateRefund(db, j, p, owner, amount, id, key, now).0;
            next == db || RefundQueued(db, next, j, p, owner, id, key, now)
  {
  }

  // ---------- commits of workers ----------

  /** The payment had moved on, and the event is only marked done. */
  predicate OnlyDone(db: Db, next: Db, k: EventKey, p: PaymentId, status: PaymentStatus) {
    k in db.outbox && p in db.payments && db.payments[p].status == status && next == DoneEvent(db, k)
  }

  predicate Confirmed(db: Db, next: Db, k: EventKey, p: PaymentId, ref: Ref) {
    k in db.outbox && p in db.payments && db.payments[p].status == HoldPending
    && next == Confirm(DoneEvent(db, k), p, ref)
  }

  predicate ReleasedBy(db: Db, next: Db, k: EventKey, p: PaymentId) {
    k in db.outbox && p in db.payments && db.payments[p].status == ReleasePending
    && next == FinishRelease(DoneEvent(db, k), p, db.payments[p].ref, PaymentRelease, PaymentPayout)
  }

  predicate PaidBack(db: Db, next: Db, k: EventKey, p: PaymentId, r: RefundId, ref: Ref) {
    k in db.outbox && p in db.payments && db.payments[p].status == RefundPending && PendingRefund(db, p, r)
    && next == FinishRefund(DoneEvent(db, k), p, r, Some(ref), PaymentRefund)
  }

  predicate HoldCommit(db: Db, next: Db, k: EventKey, p: PaymentId, ref: Ref) {
    OnlyDone(db, next, k, p, Held) || Confirmed(db, next, k, p, ref)
  }

  predicate ReleaseCommit(db: Db, next: Db, k: EventKey, p: PaymentId) {
    OnlyDone(db, next, k, p, Released) || ReleasedBy(db, next, k, p)
  }

  predicate RefundCommit(db: Db, next: Db, k: EventKey, p: PaymentId, r: RefundId, ref: Ref) {
    OnlyDone(db, next, k, p, PaymentStatus.Refunded) || PaidBack(db, next, k, p, r, ref)
  }

  lemma HoldCommits(db: Db, k: EventKey, j: JobId, p: PaymentId, ref: Ref, token: Option<nat>)
    ensures var next := CompleteHold(db, k, j, p, ref, token).0; next == db || HoldCommit(db, next, k, p, ref)
  {
  }

  lemma ReleaseCommits(db: Db, k: EventKey, j: JobId, p: PaymentId, token: Option<nat>)
    ensures var next := CompleteRelease(db, k, j, p, token).0; next == db || ReleaseCommit(db, next, k, p)
  {
  }

  lemma RefundCommits(db: Db, k: EventKey, j: JobId, p: PaymentId, r: RefundId, ref: Ref, token: Option<nat>)
    ensures var next := CompleteRefund(db, k, j, p, r, ref, token).0; next == db || RefundCommit(db, next, k, p, r, ref)
  {
  }

  predicate TicketCommit(db: Db, next: Db, t: Ticket, ref: Ref) {
    match t.payload
    case HoldPayload(_, _, p, _, _, _, _) => HoldCommit(db, next, t.event, p, ref)
    case ReleasePayload(_, _, p, _, _) => ReleaseCommit(db, next, t.event, p)
    case RefundPayload(_, _, p, r, _, _) => RefundCommit(db, next, t.event, p, r, ref)
  }

  lemma TicketCommits(db: Db, t: Ticket, ref: Ref)
    ensures var next := CompleteTicket(db, t, ref).0; next == db || TicketCommit(db, next, t, ref)
  {
    match t.payload {
      case HoldPayload(j, _, p, _, _, _, _) => HoldCommits(db, t.event, j, p, ref, Some(t.token));
      case ReleasePayload(j, _, p, _, _) => ReleaseCommits(db, t.event, j, p, Some(t.token));
      case RefundPayload(j, _, p, r, _, _) => RefundCommits(db, t.event, j, p, r, ref, Some(t.token));
    }
  }

  lemma CompensateKeepsOutbox(db: Db, k: EventKey)
    requires k in db.outbox
    ensures Compensate(db, k).outbox == db.outbox && Compensate(db, k).nextId == db.nextId
  {
  }

  // ---------- webhooks ----------

  predicate HeldByHook(db: Db, next: Db, id: WebhookId, p: PaymentId, ref: Ref) {
    p in db.payments && db.payments[p].status == HoldPending && next == Confirm(Logged(db, id), p, ref)
  }

  predicate ReleasedByHook(db: Db, next: Db, id: WebhookId, p: PaymentId, ref: Ref) {
    p in db.payments && (db.payments[p].status == ReleasePending || db.payments[p].status == ReleaseFailed)
    && next == FinishRelease(Logged(db, id), p, SettledRef(db.payments[p], ref), PaymentWebhook, PaymentWebhook)
  }

  predicate RefundedByHook(db: Db, next: Db, id: WebhookId, p: PaymentId, ref: Ref, row: RefundId) {
    p in db.payments && db.payments[p].status == RefundPending && PendingRefund(db, p, row)
    && next == FinishRefund(Logged(db, id), p, row, RefundedRef(db, row, ref), PaymentWebhook)
  }

  predicate OnlyLogged(db: Db, next: Db, id: WebhookId) { next == Logged(db, id) }

  /** A webhook moves the payment that waits for it, or is only logged. */
  predicate WebhookCommit(db: Db, next: Db, id: WebhookId, p: PaymentId, ref: Ref, row: RefundId) {
    HeldByHook(db, next, id, p, ref) || ReleasedByHook(db, next, id, p, ref)
    || RefundedByHook(db, next, id, p, ref, row) || OnlyLogged(db, next, id)
  }

  lemma WebhookCommits(db: Db, id: WebhookId, kind: WebhookType, p: PaymentId, ref: Ref, row: RefundId)
    requires kind == PaymentRefunded && HasPendingRefund(db, p) ==> LatestPendingRefund(db, p, row)
    ensures var next := ApplyWebhook(db, id, kind, p, ref, row).0;
            next == db || WebhookCommit(db, next, id, p, ref, row)
  {
  }
}
