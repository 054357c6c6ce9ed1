/** What one transaction may do to the rows that exist: payments keep their identity and move along fixed edges,
    payloads never change, the ledger only grows. */
module Evolution {
  import opened Options
  import opened Money
  import opened Schema
  import opened Transactions
  import opened Protocol
  import opened Outcomes

  /** The single moves of a payment row. */
  predicate Moves(from: PaymentStatus, to: PaymentStatus) {
    from == to || match from
    case HoldPending => to in {Held, HoldFailed}
    case HoldFailed => to == HoldPending
    case Held => to in {RefundPending, ReleasePending}
    case RefundPending => to in {Held, PaymentStatus.Refunded}
    case ReleasePending => to in {Released, ReleaseFailed}
    case ReleaseFailed => to in {ReleasePending, Released}
    case _ => false
  }

  predicate PaymentEvolves(a: Payment, b: Payment) {
    && b == a.(status := b.status, ref := b.ref, key := b.key)
    && Moves(a.status, b.status)
    && (b.key != a.key ==> a.key == NoKey && a.status == HoldFailed && b.status == HoldPending)
    && (b.ref != a.ref ==> a.status == HoldPending && b.status == Held)
  }

  predicate RefundEvolves(a: RefundRow, b: RefundRow) {
    && b == a.(status := b.status, ref := b.ref)
    && (a.status == RefundStatus.Refunded ==> b == a)
  }

  /** A settlement is written only while its payment waits for the release. */
  predicate SettlementStays(db: Db, next: Db, p: PaymentId)
    requires p in db.settlements && p in next.settlements
  {
    next.settlements[p] == db.settlements[p]
    || (p in db.payments && db.payments[p].status in {ReleasePending, ReleaseFailed})
  }

  predicate Evolves(db: Db, next: Db) {
    && db.nextId <= next.nextId
    && db.webhooks <= next.webhooks
    && (forall k :: k in db.outbox ==> k in next.outbox && next.outbox[k].payload == db.outbox[k].payload)
    && (forall p :: p in db.payments ==> p in next.payments && PaymentEvolves(db.payments[p], next.payments[p]))
    && (forall p :: p in next.payments && p !in db.payments ==> next.payments[p].status == HoldPending)
    && (forall r :: r in db.refunds ==> r in next.refunds && RefundEvolves(db.refunds[r], next.refunds[r]))
    && (forall p :: p in db.settlements ==> p in next.settlements && SettlementStays(db, next, p))
    && |db.ledger| <= |next.ledger| && next.ledger[..|db.ledger|] == db.ledger
  }

  /** A lease token, once replaced, is replaced by a number that was never used. */
  predicate TokensFresh(db: Db, next: Db) {
    forall k :: k in db.outbox && k in next.outbox ==>
      next.outbox[k].token == db.outbox[k].token || next.outbox[k].token.None?
      || next.outbox[k].token.value >= db.nextId
  }

  predicate Grows(db: Db, next: Db) { Evolves(db, next) && TokensFresh(db, next) }

  /** The tables of the payment protocol are as they were. */
  predicate Bystands(db: Db, next: Db) {
    next == db.(jobs := next.jobs, offers := next.offers, applications := next.applications)
  }

  lemma BystandersGrow(db: Db, next: Db)
    requires Bystands(db, next)
    ensures Grows(db, next)
  {
  }

  /** One payment row moves, one event keeps its payload, nothing is posted. */
  lemma RowsGrow(db: Db, next: Db, p: PaymentId, k: EventKey)
    requires p in db.payments && p in next.payments && PaymentEvolves(db.payments[p], next.payments[p])
    requires next.payments == db.payments[p := next.payments[p]]
    requires k in next.outbox && next.outbox == db.outbox[k := next.outbox[k]]
    requires k in db.outbox ==>
               next.outbox[k].payload == db.outbox[k].payload && next.outbox[k].token == db.outbox[k].token
    requires forall r :: r in db.refunds ==> r in next.refunds && RefundEvolves(db.refunds[r], next.refunds[r])
    requires next.settlements == db.settlements && next.ledger == db.ledger && db.nextId <= next.nextId
             && db.webhooks <= next.webhooks
    ensures Grows(db, next)
  {
  }

  lemma InsertGrows(db: Db, pay: Payment, id: PaymentId, offer: Option<OfferId>, now: int)
    requires pay.job in db.jobs && pay.status == HoldPending && id !in db.payments
             && EventKey(CreateHold, id) !in db.outbox
    ensures Grows(db, InsertPayment(db, pay, id, offer, now))
  {
  }

  lemma ReopenGrows(db: Db, p: PaymentId, newKey: Key, rebuilt: Payload, now: int)
    requires p in db.payments && db.payments[p].status == HoldFailed
             && (db.payments[p].key != NoKey ==> newKey == db.payments[p].key)
    ensures Grows(db, ReopenHold(db, p, newKey, rebuilt, now))
  {
    RowsGrow(db, ReopenHold(db, p, newKey, rebuilt, now), p, EventKey(CreateHold, p));
  }

  lemma FundGrows(db: Db, next: Db, j: JobId, payer: UserId, payee: UserId, offer: Option<OfferId>, amount: nat,
      id: PaymentId, key: Key, currency: Currency, now: int)
    requires FundCommit(db, next, j, payer, payee, offer, amount, id, key, currency, now)
    ensures Grows(db, next)
  {
    if Reopened(db, next, j, payer, key, currency, now) {
      RetryGrows(db, j, payer, key, currency, now);
    } else {
      InsertGrows(db, NewPayment(db.jobs[j], j, payer, payee, amount, id, key, currency), id, offer, now);
    }
  }

  lemma RetryGrows(db: Db, j: JobId, payer: UserId, key: Key, currency: Currency, now: int)
    requires Retryable(db, j, key)
    ensures Grows(db, RetryHold(db, j, payer, key, currency, now))
  {
    var p := db.paymentByJob[j];
    var newKey := RetryKey(db.payments[p], key);
    ReopenGrows(db, p, newKey, RetryPayload(j, payer, p, db.payments[p], newKey, currency), now);
  }

  lemma CompleteJobGrows(db: Db, j: JobId, p: PaymentId)
    requires p in db.payments && db.payments[p].status == Held
    ensures Grows(db, CompleteJob(db, j, p))
  {
  }

  lemma RequestGrows(db: Db, j: JobId, p: PaymentId, owner: UserId, id: RefundId, key: Key, now: int)
    requires Refundable(db, j, p, id, key)
    ensures Grows(db, RequestRefundOf(db, j, p, owner, id, key, now))
  {
    RowsGrow(db, RequestRefundOf(db, j, p, owner, id, key, now), p, EventKey(Refund, p));
  }

  lemma QueueReleaseGrows(db: Db, j: JobId, owner: UserId, p: PaymentId, now: int)
    requires p in db.payments && db.payments[p].status in {ReleasePending, ReleaseFailed}
    ensures Grows(db, QueueRelease(db, j, owner, p, now))
  {
    RowsGrow(db, QueueRelease(db, j, owner, p, now), p, EventKey(Release, p));
  }

  lemma FinishReleaseGrows(db: Db, db1: Db, p: PaymentId, ref: Ref, release: Reference, payout: Reference)
    requires p in db.payments && db.payments[p].status in {ReleasePending, ReleaseFailed}
    requires Grows(db, db1) && db1 == db.(outbox := db1.outbox, webhooks := db1.webhooks)
    ensures Grows(db, FinishRelease(db1, p, ref, release, payout))
  {
    ReleaseAppends(db1, p, ref, release, payout);
    MoveGrows(db, db1, FinishRelease(db1, p, ref, release, payout), p);
  }

  /** One payment row moves on top of tables that have grown, and the ledger is appended to. */
  lemma MoveGrows(db: Db, db1: Db, next: Db, p: PaymentId)
    requires Grows(db, db1) && db1 == db.(outbox := db1.outbox, webhooks := db1.webhooks)
    requires p in db.payments && p in next.payments && PaymentEvolves(db.payments[p], next.payments[p])
    requires next.payments == db.payments[p := next.payments[p]] && next.refunds == db.refunds
    requires next.outbox == db1.outbox && next.webhooks == db1.webhooks && db.nextId <= next.nextId
    requires |db.ledger| <= |next.ledger| && next.ledger[..|db.ledger|] == db.ledger
    requires forall q :: q in db.settlements ==> q in next.settlements && SettlementStays(db, next, q)
    ensures Grows(db, next)
  {
  }

  lemma ReleaseAppends(db: Db, p: PaymentId, ref: Ref, release: Reference, payout: Reference)
    requires p in db.payments && db.payments[p].status in {ReleasePending, ReleaseFailed}
    ensures var next := FinishRelease(db, p, ref, release, payout);
            && |db.ledger| <= |next.ledger| && next.ledger[..|db.ledger|] == db.ledger
            && forall q :: q in db.settlements ==> q in next.settlements && SettlementStays(db, next, q)
  {
  }

  lemma FinishRefundGrows(db: Db, db1: Db, p: PaymentId, r: RefundId, ref: Option<Ref>, reference: Reference)
    requires p in db.payments && db.payments[p].status == RefundPending
    requires r in db.refunds && db.refunds[r].status == RefundStatus.Pending
    requires Grows(db, db1) && db1 == db.(outbox := db1.outbox, webhooks := db1.webhooks)
    ensures Grows(db, FinishRefund(db1, p, r, ref, reference))
  {
  }

  lemma MarkDoneGrows(db: Db, k: EventKey)
    requires k in db.outbox
    ensures Grows(db, DoneEvent(db, k))
  {
  }

  lemma ConfirmGrows(db: Db, db1: Db, p: PaymentId, ref: Ref)
    requires p in db.payments && db.payments[p].status == HoldPending
    requires Grows(db, db1) && db1 == db.(outbox := db1.outbox, webhooks := db1.webhooks)
    ensures Grows(db, Confirm(db1, p, ref))
  {
  }

  lemma CompleteHoldGrows(db: Db, next: Db, k: EventKey, p: PaymentId, ref: Ref)
    requires HoldCommit(db, next, k, p, ref)
    ensures Grows(db, next)
  {
    MarkDoneGrows(db, k);
    if Confirmed(db, next, k, p, ref) {
      ConfirmGrows(db, DoneEvent(db, k), p, ref);
    }
  }

  lemma CompleteReleaseGrows(db: Db, next: Db, k: EventKey, p: PaymentId)
    requires ReleaseCommit(db, next, k, p)
    ensures Grows(db, next)
  {
    MarkDoneGrows(db, k);
    if ReleasedBy(db, next, k, p) {
      FinishReleaseGrows(db, DoneEvent(db, k), p, db.payments[p].ref, PaymentRelease, PaymentPayout);
    }
  }

  lemma CompleteRefundGrows(db: Db, next: Db, k: EventKey, p: PaymentId, r: RefundId, ref: Ref)
    requires RefundCommit(db, next, k, p, r, ref)
    ensures Grows(db, next)
  {
    MarkDoneGrows(db, k);
    if PaidBack(db, next, k, p, r, ref) {
      FinishRefundGrows(db, DoneEvent(db, k), p, r, Some(ref), PaymentRefund);
    }
  }

  lemma CompensateGrows(db: Db, db1: Db, k: EventKey)
    requires k in db1.outbox && db1 == db.(outbox := db1.outbox) && Grows(db, db1)
    ensures Grows(db, Compensate(db1, k))
  {
  }

  lemma EventGrows(db: Db, next: Db, k: EventKey)
    requires k in db.outbox && k in next.outbox && next.outbox[k].payload == db.outbox[k].payload
    requires next == db.(outbox := db.outbox[k := next.outbox[k]], nextId := next.nextId) && db.nextId <= next.nextId
    requires next.outbox[k].token == db.outbox[k].token || next.outbox[k].token.None?
             || next.outbox[k].token.value >= db.nextId
    ensures Grows(db, next)
  {
  }

  lemma FailWithGrows(db: Db, k: EventKey, failed: Event)
    requires k in db.outbox && failed.payload == db.outbox[k].payload && failed.token.None?
    ensures Grows(db, FailWith(db, k, failed))
  {
    EventGrows(db, db.(outbox := db.outbox[k := failed]), k);
    if failed.status == EventStatus.Failed {
      CompensateGrows(db, db.(outbox := db.outbox[k := failed]), k);
    }
  }

  lemma LoggedGrows(db: Db, id: WebhookId)
    ensures Grows(db, Logged(db, id))
  {
  }

  lemma WebhookGrows(db: Db, next: Db, id: WebhookId, p: PaymentId, ref: Ref, row: RefundId)
    requires WebhookCommit(db, next, id, p, ref, row)
    ensures Grows(db, next)
  {
    LoggedGrows(db, id);
    if HeldByHook(db, next, id, p, ref) {
      ConfirmGrows(db, Logged(db, id), p, ref);
    } else if ReleasedByHook(db, next, id, p, ref) {
      FinishReleaseGrows(db, Logged(db, id), p, SettledRef(db.payments[p], ref), PaymentWebhook, PaymentWebhook);
    } else if RefundedByHook(db, next, id, p, ref, row) {
      FinishRefundGrows(db, Logged(db, id), p, row, RefundedRef(db, row, ref), PaymentWebhook);
    }
  }

  lemma UpdateBystands(db: Db, j: JobId, from: set<JobStatus>, to: JobStatus)
    ensures Bystands(db, UpdateJob(db, j, from, to).0)
  {
  }

  lemma OfferBystands(db: Db, o: OfferId, owner: UserId)
    ensures Bystands(db, AcceptOffer(db, o, owner).0)
  {
  }

  lemma DeleteBystands(db: Db, j: JobId)
    ensures Bystands(db, DeleteJob(db, j).0)
  {
  }

  lemma BoardBystands(db: Db, s: BoardStep)
    ensures Bystands(db, NextBoard(db, s))
  {
    match s {
      case Publish(j) => UpdateBystands(db, j, {Draft}, Published);
      case StartWrite(j) => UpdateBystands(db, j, {Funded}, InProgress);
      case Deliver(j) => UpdateBystands(db, j, {InProgress}, Delivered);
      case AcceptOfferStep(o, owner) => OfferBystands(db, o, owner);
      case DeleteJobStep(j) => DeleteBystands(db, j);
      case _ => PostingBystands(db, s);
    }
  }

  lemma CreateBystands(db: Db, j: JobId, owner: UserId, kind: Kind)
    ensures Bystands(db, CreateJob(db, j, owner, kind).0)
  {
  }

  lemma SubmitBystands(db: Db, o: OfferId, j: JobId, provider: UserId, price: nat)
    ensures Bystands(db, SubmitOffer(db, o, j, provider, price).0)
  {
  }

  lemma ModerateBystands(db: Db, j: JobId, status: JobStatus)
    ensures Bystands(db, Moderate(db, j, status).0)
  {
  }

  lemma PostingBystands(db: Db, s: BoardStep)
    requires s.CreateJobStep? || s.SubmitOfferStep? || s.ModerateStep? || s.ForgetProviderStep? || s.StartRead?
    ensures Bystands(db, NextBoard(db, s))
  {
    match s {
      case CreateJobStep(j, owner, kind) => CreateBystands(db, j, owner, kind);
      case SubmitOfferStep(o, j, provider, price) => SubmitBystands(db, o, j, provider, price);
      case ModerateStep(j, status) => ModerateBystands(db, j, status);
      case _ =>
    }
  }

  lemma EmployerBystands(db: Db, a: ApplicationId, owner: UserId, from: set<ApplicationStatus>, to: ApplicationStatus,
      j: JobId)
    ensures Bystands(db, TransitionEmployerApplication(db, a, owner, from, to, j).0)
  {
  }

  lemma RecruitBystands(db: Db, s: RecruitStep)
    ensures Bystands(db, NextRecruit(db, s))
  {
    match s {
      case Invite(a, owner, j) => EmployerBystands(db, a, owner, {Forwarded}, Interview, j);
      case MakeOffer(a, owner, j) => EmployerBystands(db, a, owner, {Interview}, Offered, j);
      case Hire(a, owner, j) => EmployerBystands(db, a, owner, {Offered}, ApplicationStatus.Accepted, j);
      case _ =>
    }
  }

  lemma FundStepGrows(db: Db, s: PayStep)
    requires s.Fund?
    ensures Grows(db, NextPay(db, s))
  {
    FundCommits(db, s.job, s.payer, s.payee, s.chosen, s.amount, s.payment, s.key, s.currency, s.now);
    if NextPay(db, s) != db {
      FundGrows(db, NextPay(db, s), s.job, s.payer, s.payee, s.chosen, s.amount, s.payment, s.key, s.currency, s.now);
    }
  }

  lemma WebhookStepGrows(db: Db, s: PayStep)
    requires s.Webhook?
    ensures Grows(db, NextPay(db, s))
  {
    if !Impossible(db, s) {
      WebhookCommits(db, s.id, s.kind, s.payment, s.ref, s.row);
      if NextPay(db, s) != db {
        WebhookGrows(db, NextPay(db, s), s.id, s.payment, s.ref, s.row);
      }
    }
  }

  lemma RequestStepGrows(db: Db, s: PayStep)
    requires s.Accept? || s.RequestRefund? || s.RequestRelease?
    ensures Grows(db, NextPay(db, s))
  {
    if NextPay(db, s) != db {
      match s {
        case Accept(j) => CompleteJobGrows(db, j, db.paymentByJob[j]);
        case RequestRefund(j, p, owner, amount, r, key, now) => RequestGrows(db, j, p, owner, r, key, now);
        case RequestRelease(j, owner, p, now) => QueueReleaseGrows(db, j, owner, p, now);
      }
    }
  }

  lemma PayGrows(db: Db, s: PayStep)
    ensures Grows(db, NextPay(db, s))
  {
    match s {
      case Fund(_, _, _, _, _, _, _, _, _) => FundStepGrows(db, s);
      case Webhook(_, _, _, _, _) => WebhookStepGrows(db, s);
      case _ => RequestStepGrows(db, s);
    }
  }

  lemma TicketGrows(db: Db, next: Db, t: Ticket, ref: Ref)
    requires TicketCommit(db, next, t, ref)
    ensures Grows(db, next)
  {
    match t.payload {
      case HoldPayload(_, _, p, _, _, _, _) => CompleteHoldGrows(db, next, t.event, p, ref);
      case ReleasePayload(_, _, p, _, _) => CompleteReleaseGrows(db, next, t.event, p);
      case RefundPayload(_, _, p, r, _, _) => CompleteRefundGrows(db, next, t.event, p, r, ref);
    }
  }

  lemma CompleteGrows(db: Db, t: Ticket, ref: Ref)
    ensures Grows(db, CompleteTicket(db, t, ref).0)
  {
    TicketCommits(db, t, ref);
    if CompleteTicket(db, t, ref).0 != db {
      TicketGrows(db, CompleteTicket(db, t, ref).0, t, ref);
    }
  }

  lemma FailGrows(db: Db, k: EventKey, token: Option<nat>, maxAttempts: nat, now: int, jitter: nat)
    ensures Grows(db, FailEvent(db, k, token, maxAttempts, now, jitter).0)
  {
    if FailReply(db, k, token, maxAttempts) in {RetryLater, Terminal} {
      FailWithGrows(db, k, AfterFailure(db.outbox[k], maxAttempts, now, jitter));
    }
  }

  lemma ClaimGrows(db: Db, k: EventKey, now: int)
    requires k in db.outbox
    ensures Grows(db, Claim(db, k, now))
  {
    EventGrows(db, Claim(db, k, now), k);
  }

  lemma WorkGrows(db: Db, s: WorkStep)
    ensures Grows(db, NextWork(db, s))
  {
    match s {
      case ClaimStep(k, now, _) => if k in db.outbox { ClaimGrows(db, k, now); }
      case CallProvider(_) =>
      case Complete(t, ref) => CompleteGrows(db, t, ref);
      case Fail(t, maxAttempts, now, jitter) => FailGrows(db, t.event, Some(t.token), maxAttempts, now, jitter);
    }
  }

  /** Every step of every party only moves payments along the edges above and only appends to the ledger. */
  lemma NextGrows(db: Db, s: Step)
    ensures Grows(db, NextDb(db, s))
  {
    match s {
      case Board(b) => BoardBystands(db, b); BystandersGrow(db, NextDb(db, s));
      case Recruit(r) => RecruitBystands(db, r); BystandersGrow(db, NextDb(db, s));
      case Pay(m) => PayGrows(db, m);
      case Work(k) => WorkGrows(db, k);
    }
  }
}
