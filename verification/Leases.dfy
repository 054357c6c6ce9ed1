/** A row in processing says since when it is: the column that a claim after the end of the lease needs. */
module Leases {
  import opened Options
  import opened Schema
  import opened Transactions
  import opened Protocol
  import opened Outcomes
  import opened Evolution

  predicate Locked(outbox: map<EventKey, Event>) {
    forall k :: k in outbox && outbox[k].status == EventStatus.Processing ==> outbox[k].lockedAt.Some?
  }

  /** At most one event changes, and it is not in processing, or says since when. */
  predicate OneEvent(db: Db, next: Db, k: EventKey) {
    && k in next.outbox && next.outbox == db.outbox[k := next.outbox[k]]
    && (next.outbox[k].status == EventStatus.Processing ==> next.outbox[k].lockedAt.Some?)
  }

  lemma OneEventKeepsLocked(db: Db, next: Db, k: EventKey)
    requires Locked(db.outbox) && OneEvent(db, next, k)
    ensures Locked(next.outbox)
  {
  }

  lemma FundKeepsLocked(db: Db, next: Db, s: PayStep)
    requires s.Fund? && Locked(db.outbox)
    requires FundCommit(db, next, s.job, s.payer, s.payee, s.chosen, s.amount, s.payment, s.key, s.currency, s.now)
    ensures Locked(next.outbox)
  {
    if Reopened(db, next, s.job, s.payer, s.key, s.currency, s.now) {
      OneEventKeepsLocked(db, next, EventKey(CreateHold, db.paymentByJob[s.job]));
    } else {
      OneEventKeepsLocked(db, next, EventKey(CreateHold, s.payment));
    }
  }

  lemma RefundKeepsLocked(db: Db, j: JobId, p: PaymentId, owner: UserId, id: RefundId, key: Key, now: int)
    requires p in db.payments && Locked(db.outbox)
    ensures Locked(RequestRefundOf(db, j, p, owner, id, key, now).outbox)
  {
  }

  lemma ReleaseKeepsLocked(db: Db, j: JobId, owner: UserId, p: PaymentId, now: int)
    requires p in db.payments && Locked(db.outbox)
    ensures Locked(QueueRelease(db, j, owner, p, now).outbox)
  {
  }

  lemma ReleaseWritesKeepOutbox(db: Db, p: PaymentId, ref: Ref, release: Reference, payout: Reference)
    requires p in db.payments
    ensures FinishRelease(db, p, ref, release, payout).outbox == db.outbox
  {
  }

  lemma RefundWritesKeepOutbox(db: Db, p: PaymentId, r: RefundId, ref: Option<Ref>, reference: Reference)
    requires p in db.payments && r in db.refunds
    ensures FinishRefund(db, p, r, ref, reference).outbox == db.outbox
  {
  }

  lemma HeldHookKeepsOutbox(db: Db, next: Db, id: WebhookId, p: PaymentId, ref: Ref)
    requires HeldByHook(db, next, id, p, ref)
    ensures next.outbox == db.outbox
  {
  }

  lemma ReleaseHookKeepsOutbox(db: Db, next: Db, id: WebhookId, p: PaymentId, ref: Ref)
    requires ReleasedByHook(db, next, id, p, ref)
    ensures next.outbox == db.outbox
  {
    ReleaseWritesKeepOutbox(Logged(db, id), p, SettledRef(db.payments[p], ref), PaymentWebhook, PaymentWebhook);
  }

  lemma RefundHookKeepsOutbox(db: Db, next: Db, id: WebhookId, p: PaymentId, ref: Ref, row: RefundId)
    requires RefundedByHook(db, next, id, p, ref, row)
    ensures next.outbox == db.outbox
  {
    RefundWritesKeepOutbox(Logged(db, id), p, row, RefundedRef(db, row, ref), PaymentWebhook);
  }

  lemma WebhookKeepsOutbox(db: Db, next: Db, id: WebhookId, p: PaymentId, ref: Ref, row: RefundId)
    requires WebhookCommit(db, next, id, p, ref, row)
    ensures next.outbox == db.outbox
  {
    if OnlyLogged(db, next, id) {
    } else if HeldByHook(db, next, id, p, ref) {
      HeldHookKeepsOutbox(db, next, id, p, ref);
    } else if ReleasedByHook(db, next, id, p, ref) {
      ReleaseHookKeepsOutbox(db, next, id, p, ref);
    } else {
      RefundHookKeepsOutbox(db, next, id, p, ref, row);
    }
  }

  lemma PayKeepsLocked(db: Db, s: PayStep)
    requires Locked(db.outbox)
    ensures Locked(NextPay(db, s).outbox)
  {
    if NextPay(db, s) != db {
      match s {
        case Fund(j, payer, payee, chosen, amount, p, key, currency, now) =>
          FundCommits(db, j, payer, payee, chosen, amount, p, key, currency, now);
          FundKeepsLocked(db, NextPay(db, s), s);
        case Accept(_) =>
        case RequestRefund(j, p, owner, amount, r, key, now) => RefundKeepsLocked(db, j, p, owner, r, key, now);
        case RequestRelease(j, owner, p, now) => ReleaseKeepsLocked(db, j, owner, p, now);
        case Webhook(id, kind, p, ref, row) =>
          WebhookCommits(db, id, kind, p, ref, row);
          WebhookKeepsOutbox(db, NextPay(db, s), id, p, ref, row);
      }
    }
  }

  lemma ReleaseCommitMarks(db: Db, next: Db, k: EventKey, p: PaymentId)
    requires ReleaseCommit(db, next, k, p)
    ensures k in db.outbox && next.outbox == DoneEvent(db, k).outbox
  {
    if ReleasedBy(db, next, k, p) {
      ReleaseWritesKeepOutbox(DoneEvent(db, k), p, db.payments[p].ref, PaymentRelease, PaymentPayout);
    } else {
      assert OnlyDone(db, next, k, p, Released);
    }
  }

  lemma RefundCommitMarks(db: Db, next: Db, k: EventKey, p: PaymentId, r: RefundId, ref: Ref)
    requires RefundCommit(db, next, k, p, r, ref)
    ensures k in db.outbox && next.outbox == DoneEvent(db, k).outbox
  {
    if PaidBack(db, next, k, p, r, ref) {
      RefundWritesKeepOutbox(DoneEvent(db, k), p, r, Some(ref), PaymentRefund);
    } else {
      assert OnlyDone(db, next, k, p, PaymentStatus.Refunded);
    }
  }

  lemma HoldCommitMarks(db: Db, next: Db, k: EventKey, p: PaymentId, ref: Ref)
    requires HoldCommit(db, next, k, p, ref)
    ensures k in db.outbox && next.outbox == DoneEvent(db, k).outbox
  {
  }

  lemma TicketCommitMarks(db: Db, next: Db, t: Ticket, ref: Ref)
    requires TicketCommit(db, next, t, ref)
    ensures t.event in db.outbox && next.outbox == DoneEvent(db, t.event).outbox
  {
    match t.payload {
      case HoldPayload(_, _, p, _, _, _, _) => HoldCommitMarks(db, next, t.event, p, ref);
      case ReleasePayload(_, _, p, _, _) => ReleaseCommitMarks(db, next, t.event, p);
      case RefundPayload(_, _, p, r, _, _) => RefundCommitMarks(db, next, t.event, p, r, ref);
    }
  }

  lemma CommitKeepsLocked(db: Db, next: Db, t: Ticket, ref: Ref)
    requires TicketCommit(db, next, t, ref) && Locked(db.outbox)
    ensures Locked(next.outbox)
  {
    TicketCommitMarks(db, next, t, ref);
    OneEventKeepsLocked(db, next, t.event);
  }

  lemma FailKeepsLocked(db: Db, k: EventKey, failed: Event)
    requires k in db.outbox && failed.status != EventStatus.Processing && Locked(db.outbox)
    ensures Locked(FailWith(db, k, failed).outbox)
  {
    CompensateKeepsOutbox(db.(outbox := db.outbox[k := failed]), k);
  }

  lemma WorkKeepsLocked(db: Db, s: WorkStep)
    requires Locked(db.outbox)
    ensures Locked(NextWork(db, s).outbox)
  {
    match s {
      case ClaimStep(_, _, _) =>
      case CallProvider(_) =>
      case Complete(t, ref) =>
        TicketCommits(db, t, ref);
        if NextWork(db, s) != db {
          CommitKeepsLocked(db, NextWork(db, s), t, ref);
        }
      case Fail(t, maxAttempts, now, jitter) =>
        if FailReply(db, t.event, Some(t.token), maxAttempts) in {RetryLater, Terminal} {
          FailKeepsLocked(db, t.event, AfterFailure(db.outbox[t.event], maxAttempts, now, jitter));
        }
    }
  }

  lemma NextKeepsLocked(db: Db, s: Step)
    requires Locked(db.outbox)
    ensures Locked(NextDb(db, s).outbox)
  {
    match s {
      case Board(b) => BoardBystands(db, b);
      case Recruit(r) => RecruitBystands(db, r);
      case Pay(m) => PayKeepsLocked(db, m);
      case Work(k) => WorkKeepsLocked(db, k);
    }
  }

  /** In every reachable state. */
  lemma {:induction false} ReachableIsLocked(steps: seq<Step>)
    ensures Locked(Run(INITIAL, steps).db.outbox)
  {
    if steps != [] {
      ReachableIsLocked(steps[..|steps|-1]);
      NextKeepsLocked(Run(INITIAL, steps[..|steps|-1]).db, steps[|steps|-1]);
    }
  }
}
