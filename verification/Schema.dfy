/** The tables the payment protocol reads and writes, one record per row
    (backend/src/db/migrations/001_initial_schema.js). Identifiers are numbers; the text values that matter only
    through equality (idempotency keys, provider references) are small datatypes. */
module Schema {
  import opened Options
  import opened Money

  type UserId = nat
  type JobId = nat
  type OfferId = nat
  type ApplicationId = nat
  type PaymentId = nat
  type RefundId = nat
  type WebhookId = nat
  type Currency = nat

  /** Idempotency keys. A client may send any key but the empty one, also a text equal to one of the defaults. */
  datatype Key =
    | NoKey | ClientKey(n: nat)
    | PaymentKey(payment: PaymentId) | ReleaseKey(release: PaymentId) | RefundKey(refund: RefundId)

  /** Provider references; Placeholder(p) is the text "PENDING:p" stored until the provider has confirmed the hold. */
  datatype Ref = NoRef | Placeholder(payment: PaymentId) | External(n: nat)

  datatype JobStatus =
    | Draft | Published | Assigned | Funded | InProgress | Delivered | UnderReview | Completed | Settled | Cancelled
  datatype OfferStatus = Pending | Accepted | Rejected
  datatype ApplicationStatus = Pending | Shortlisted | Forwarded | Interview | Offered | Accepted | Rejected | Withdrawn
  datatype PaymentStatus =
    | HoldPending | HoldFailed | Held | RefundPending | Refunded | ReleasePending | ReleaseFailed | Released
  datatype RefundStatus = Pending | Refunded | Failed
  datatype EventStatus = Pending | Processing | Done | Failed
  datatype EventKind = CreateHold | Release | Refund
  datatype Reference = PaymentFund | PaymentRelease | PaymentPayout | PaymentRefund | PaymentWebhook

  datatype Job = Job(owner: UserId, provider: Option<UserId>, kind: Kind, status: JobStatus)
  datatype Offer = Offer(job: JobId, provider: UserId, price: nat, status: OfferStatus)
  datatype Application = Application(job: JobId, candidate: UserId, status: ApplicationStatus)
  datatype Payment = Payment(job: JobId, payer: UserId, payee: UserId, amount: nat, status: PaymentStatus, ref: Ref,
                             key: Key,
                             fees: Fees, currency: Currency)
  datatype RefundRow = RefundRow(payment: PaymentId, amount: nat, status: RefundStatus, ref: Option<Ref>, key: Key,
                                 createdAt: int)
  datatype Settlement = Settlement(ref: Ref, amount: nat, currency: Currency)

  /** The JSON payload of an event; it is written when the row is inserted and no upsert rewrites it. */
  datatype Payload =
    | HoldPayload(job: JobId, owner: UserId, payment: PaymentId, amount: nat, base: nat, currency: Currency, key: Key)
    | ReleasePayload(job: JobId, owner: UserId, payment: PaymentId, ref: Ref, key: Key)
    | RefundPayload(job: JobId, owner: UserId, payment: PaymentId, refund: RefundId, ref: Ref, key: Key)

  /** The dedupe_key of an event, "PAYMENT_CREATE_HOLD:p" and so on. It is UNIQUE, so it identifies the row. */
  datatype EventKey = EventKey(kind: EventKind, payment: PaymentId)
  datatype Event = Event(status: EventStatus, attempts: nat, availableAt: int, lockedAt: Option<int>,
                         token: Option<nat>, createdAt: int,
                         payload: Payload)

  datatype Entry = Entry(journal: nat, reference: Reference, payment: PaymentId, line: Line)

  /** The tables. The three *By* maps are the UNIQUE indexes on payments.job_id, payments(payer_id, idempotency_key) and
      refunds(payment_id, idempotency_key); nextId supplies the journal ids and lease tokens that the source draws at
      random. */
  datatype Db = Db(
    jobs: map<JobId, Job>,
    offers: map<OfferId, Offer>,
    applications: map<ApplicationId, Application>,
    payments: map<PaymentId, Payment>,
    paymentByJob: map<JobId, PaymentId>,
    paymentByKey: map<(UserId, Key), PaymentId>,
    refunds: map<RefundId, RefundRow>,
    refundByKey: map<(PaymentId, Key), RefundId>,
    settlements: map<PaymentId, Settlement>,
    webhooks: set<WebhookId>,
    outbox: map<EventKey, Event>,
    ledger: seq<Entry>,
    nextId: nat)

  const EMPTY: Db := Db(map[], map[], map[], map[], map[], map[], map[], map[], map[], {}, map[], [], 0)

  datatype Error =
    | Forbidden | InvalidState | InvalidPaymentState | PaymentAlreadyExists | IdempotencyConflict | InvalidOfferState
    | InvalidAmount | PaymentNotFound | PartialRefundUnsupported | ProviderRefMismatch | RefundNotFound | JobLocked
    | JobHasFinancialRecords | JobOnly | ApplicationJobMismatch | InvalidApplicationState | CandidateAlreadyHired
    | JobNotHirable | InvalidStatus | UniqueViolation | JournalRejected

  datatype Reason = OutboxNotFound | StaleLease | NoSuchPayment | WrongPaymentState | NoSuchRefund | WrongRefundState

  /** What a transaction answers: null, a result, a refusal that commits nothing, or an exception that rolls everything
      back. */
  datatype Reply =
    | Null | Created | Retried | Replayed | Updated | Queued | Committed | AlreadyDone | Duplicate | Processed
    | Stale | RetryLater | Terminal | Refused(reason: Reason) | Throw(error: Error)

  predicate RefTaken(payments: map<PaymentId, Payment>, ref: Ref, self: PaymentId) {
    exists p :: p in payments && p != self && payments[p].ref == ref
  }

  predicate RefundRefTaken(refunds: map<RefundId, RefundRow>, ref: Ref, self: RefundId) {
    exists r :: r in refunds && r != self && refunds[r].ref == Some(ref)
  }

  predicate SettlementRefTaken(settlements: map<PaymentId, Settlement>, ref: Ref, self: PaymentId) {
    exists p :: p in settlements && p != self && settlements[p].ref == ref
  }

  function Rows(journal: nat, reference: Reference, p: PaymentId, lines: seq<Line>): (rows: seq<Entry>)
    ensures |rows| == |lines|
  {
    seq(|lines|, i requires 0 <= i < |lines| => Entry(journal, reference, p, lines[i]))
  }

  /** One journal of payment p under a fresh journal id. */
  function Post(db: Db, reference: Reference, p: PaymentId, lines: seq<Line>): Db {
    db.(ledger := db.ledger + Rows(db.nextId, reference, p, lines), nextId := db.nextId + 1)
  }

  function SetJobStatus(jobs: map<JobId, Job>, j: JobId, status: JobStatus): map<JobId, Job> {
    if j in jobs then jobs[j := jobs[j].(status := status)] else jobs
  }
}
