/** The offline payment adapter (backend/src/application/legacy/payment_legacy.js) and the SQL protocol behind the same
    routes. The offline form settles at once; the SQL form queues an event, and here its outbox is drained by a
    succeeding provider after every command. Both reach the same jobs, offers, payments, refunds, settlements and ledger
    lines. */
module Offline {
  import opened Options
  import opened Money
  import opened Schema
  import opened Transactions
  import opened Protocol

  /** A payment row without the provider reference, which the two forms draw from different sources. */
  datatype OffPayment = OffPayment(job: JobId, payer: UserId, payee: UserId, amount: nat, status: PaymentStatus,
                                   key: Key, fees: Fees,
                                   currency: Currency)
  datatype OffRefund = OffRefund(payment: PaymentId, amount: nat, status: RefundStatus, key: Key)
  datatype OffSettlement = OffSettlement(amount: nat, currency: Currency)
  datatype OffLine = OffLine(payment: PaymentId, line: Line)

  datatype OffDb = OffDb(jobs: map<JobId, Job>, offers: map<OfferId, Offer>, payments: map<PaymentId, OffPayment>,
                         byJob: map<JobId, PaymentId>, byKey: map<(UserId, Key), PaymentId>, refunds: map<RefundId,
                         OffRefund>,
                         settlements: map<PaymentId, OffSettlement>, lines: seq<OffLine>)

  datatype Command =
    | FundCmd(job: JobId, me: UserId, chosen: Option<OfferId>, amount: nat, payment: PaymentId, key: Key,
              currency: Currency)
    | StartCmd(job: JobId, me: UserId)
    | DeliverCmd(job: JobId, me: UserId)
    | AcceptCmd(job: JobId, me: UserId)
    | RefundCmd(job: JobId, me: UserId, refund: RefundId, key: Key)
    | ReleaseCmd(job: JobId, me: UserId)

  // ---------- what the routes check for both forms ----------

  /** The route funds a job with a provider, or with the cheapest pending offer it found. */
  predicate Payable(jobs: map<JobId, Job>, offers: map<OfferId, Offer>, c: Command)
    requires c.FundCmd?
  {
    && c.job in jobs && jobs[c.job].owner == c.me && ValidCents(c.amount)
    && if jobs[c.job].provider.Some? then c.chosen.None?
       else c.chosen.Some? && c.chosen.value in offers && CheapestPending(offers, c.job, c.chosen.value)
  }

  predicate CheapestPending(offers: map<OfferId, Offer>, j: JobId, o: OfferId)
    requires o in offers
  {
    && offers[o].job == j && offers[o].status == OfferStatus.Pending
    && forall x :: x in offers && offers[x].job == j && offers[x].status == OfferStatus.Pending ==>
         offers[o].price <= offers[x].price
  }

  function Payee(jobs: map<JobId, Job>, offers: map<OfferId, Offer>, c: Command): UserId
    requires c.FundCmd? && Payable(jobs, offers, c)
  {
    if jobs[c.job].provider.Some? then jobs[c.job].provider.value else offers[c.chosen.value].provider
  }

  predicate Owned(jobs: map<JobId, Job>, j: JobId, me: UserId) { j in jobs && jobs[j].owner == me }

  predicate Provided(jobs: map<JobId, Job>, j: JobId, me: UserId) { j in jobs && jobs[j].provider == Some(me) }

  // ---------- the offline form ----------

  function Lines(p: PaymentId, lines: seq<Line>): seq<OffLine> {
    seq(|lines|, i requires 0 <= i < |lines| => OffLine(p, lines[i]))
  }

  function OffStatus(off: OffDb, j: JobId): Option<PaymentStatus> {
    if j in off.byJob && off.byJob[j] in off.payments then Some(off.payments[off.byJob[j]].status) else None
  }

  function OffFund(off: OffDb, c: Command): OffDb
    requires c.FundCmd?
  {
    var j := c.job;
    if !Payable(off.jobs, off.offers, c) || j in off.byJob || (c.key != NoKey && (c.me, c.key) in off.byKey)
       || off.jobs[j].status !in {Published, Assigned} then off
    else OffInsert(off, c, Payee(off.jobs, off.offers, c), Breakdown(off.jobs[j].kind, c.amount))
  }

  /** fund(): the payment is held at once. */
  function OffInsert(off: OffDb, c: Command, payee: UserId, fees: Fees): OffDb
    requires c.FundCmd? && c.job in off.jobs
  {
    var job := off.jobs[c.job];
    off.(
      payments := off.payments[c.payment := OffPayment(c.job, c.me, payee, c.amount, Held, c.key, fees, c.currency)],
      byJob := off.byJob[c.job := c.payment],
      byKey := if c.key == NoKey then off.byKey else off.byKey[(c.me, c.key) := c.payment],
      lines := off.lines + Lines(c.payment, FundingLines(fees)),
      offers := if c.chosen.Some? then ChooseOffer(off.offers, c.chosen.value, c.job) else off.offers,
      jobs := off.jobs[c.job := job.(status := Funded, provider := if job.provider.None? then Some(payee)
                                                                   else job.provider)])
  }

  /** refund(): the payment is refunded at once. */
  function OffRefundPayment(off: OffDb, p: PaymentId, r: RefundId, key: Key): OffDb
    requires p in off.payments
  {
    var pay := off.payments[p];
    off.(payments := off.payments[p := pay.(status := PaymentStatus.Refunded)],
         jobs := RefundedJob(off.jobs, pay.job),
         refunds := off.refunds[r := OffRefund(p, pay.amount, RefundStatus.Refunded, key)],
         lines := off.lines + Lines(p, RefundLines(pay.fees)))
  }

  /** A refund of this payment under this key exists; refund() then returns it. */
  predicate KeyUsed(off: OffDb, p: PaymentId, key: Key) {
    key != NoKey && exists r :: r in off.refunds && off.refunds[r].payment == p && off.refunds[r].key == key
  }

  /** release(): release and payout are posted at once. */
  function OffReleasePayment(off: OffDb, p: PaymentId): OffDb
    requires p in off.payments
  {
    var pay := off.payments[p];
    off.(payments := off.payments[p := pay.(status := Released)],
         jobs := SetJobStatus(off.jobs, pay.job, Settled),
         settlements := off.settlements[p := OffSettlement(pay.fees.payout, pay.currency)],
         lines := off.lines + Lines(p, ReleaseLines(pay.fees)) + Lines(p, PayoutLines(pay.fees)))
  }

  function OffStep(off: OffDb, c: Command): OffDb {
    match c
    case FundCmd(_, _, _, _, _, _, _) => OffFund(off, c)
    case StartCmd(j, me) =>
      if Provided(off.jobs, j, me) && off.jobs[j].status == Funded && OffStatus(off, j) == Some(Held)
      then off.(jobs := SetJobStatus(off.jobs, j, InProgress)) else off
    case DeliverCmd(j, me) =>
      if Provided(off.jobs, j, me)
         && off.jobs[j].status == InProgress then off.(jobs := SetJobStatus(off.jobs, j, Delivered)) else off
    case AcceptCmd(j, me) =>
      if Owned(off.jobs, j, me) && off.jobs[j].status in {Delivered, UnderReview} && OffStatus(off, j) == Some(Held)
      then off.(jobs := SetJobStatus(off.jobs, j, Completed),
                payments := off.payments[off.byJob[j] := off.payments[off.byJob[j]].(status := ReleasePending)])
                else off
    case RefundCmd(j, me, r, key) =>
      if Owned(off.jobs, j, me) && OffStatus(off, j) == Some(Held)
         && !KeyUsed(off, off.byJob[j], key) then OffRefundPayment(off, off.byJob[j], r, key) else off
    case ReleaseCmd(j, me) =>
      if Owned(off.jobs, j, me) && off.jobs[j].status == Completed
         && OffStatus(off, j) in {Some(ReleasePending), Some(ReleaseFailed)}
      then OffReleasePayment(off, off.byJob[j]) else off
  }

  function OffRun(off: OffDb, cs: seq<Command>): OffDb
    decreases |cs|
  {
    if cs == [] then off else OffRun(OffStep(off, cs[0]), cs[1..])
  }

  // ---------- the SQL form ----------

  function SqlStatus(db: Db, j: JobId): Option<PaymentStatus> {
    if j in db.paymentByJob && db.paymentByJob[j] in db.payments then Some(db.payments[db.paymentByJob[j]].status)
    else None
  }

  /** What the outside world adds to a command: the provider's reference and the time. */
  datatype Answer = Answer(ref: Ref, now: int)

  /** One worker pass over event k with a provider that answers. */
  function Drain(db: Db, k: EventKey, a: Answer): Db {
    if k !in db.outbox || !Claimable(db.outbox[k], a.now, 60) then db
    else CompleteTicket(Claim(db, k, a.now), Ticket(k, db.nextId, db.outbox[k].payload), a.ref).0
  }

  /** The fund route answers an existing payment before it looks at the job. */
  predicate FundRouteOpen(db: Db, j: JobId)
    requires j in db.jobs
  {
    if j in db.paymentByJob then SqlStatus(db, j) == Some(HoldFailed) && db.jobs[j].status == Funded
    else db.jobs[j].status in {Published, Assigned}
  }

  /** The command through its route, then the worker. */
  function SqlStep(db: Db, c: Command, a: Answer): Db {
    match c
    case FundCmd(j, me, chosen, amount, p, key, currency) =>
      if !Payable(db.jobs, db.offers, c) || !FundRouteOpen(db, j) then db
      else Drain(FundJob(db, j, me, Payee(db.jobs, db.offers, c), chosen, amount, p, key, currency, a.now).0,
                 EventKey(CreateHold, p), a)
    case StartCmd(j, me) =>
      if Provided(db.jobs, j, me) && SqlStatus(db, j) == Some(Held) then UpdateJob(db, j, {Funded}, InProgress).0
      else db
    case DeliverCmd(j, me) => if Provided(db.jobs, j, me) then UpdateJob(db, j, {InProgress}, Delivered).0 else db
    case AcceptCmd(j, me) => if Owned(db.jobs, j, me) then AcceptDelivery(db, j).0 else db
    case RefundCmd(j, me, r, key) =>
      if !HasPayment(db, j) then db
      else
        var p := db.paymentByJob[j];
        Drain(CreateRefund(db, j, p, me, db.payments[p].amount, r, key, a.now).0, EventKey(Refund, p), a)
    case ReleaseCmd(j, me) =>
      if !HasPayment(db, j) then db
      else Drain(EnqueueRelease(db, j, me, db.paymentByJob[j], a.now).0, EventKey(Release, db.paymentByJob[j]), a)
  }

  function SqlRun(db: Db, cs: seq<Command>, answers: seq<Answer>): Db
    requires |cs| == |answers|
    decreases |cs|
  {
    if cs == [] then db else SqlRun(SqlStep(db, cs[0], answers[0]), cs[1..], answers[1..])
  }

  // ---------- what the two forms share ----------

  function AbsPayment(pay: Payment): OffPayment {
    OffPayment(pay.job, pay.payer, pay.payee, pay.amount, pay.status, pay.key, pay.fees, pay.currency)
  }

  function AbsPayments(payments: map<PaymentId, Payment>): map<PaymentId, OffPayment> {
    map p | p in payments :: AbsPayment(payments[p])
  }

  function AbsRefunds(refunds: map<RefundId, RefundRow>): map<RefundId, OffRefund> {
    map r | r in refunds :: OffRefund(refunds[r].payment, refunds[r].amount, refunds[r].status, refunds[r].key)
  }

  function AbsSettlements(settlements: map<PaymentId, Settlement>): map<PaymentId, OffSettlement> {
    map p | p in settlements :: OffSettlement(settlements[p].amount, settlements[p].currency)
  }

  function AbsLedger(ledger: seq<Entry>): seq<OffLine> {
    seq(|ledger|, i requires 0 <= i < |ledger| => OffLine(ledger[i].payment, ledger[i].line))
  }

  function Abs(db: Db): OffDb {
    OffDb(db.jobs, db.offers, AbsPayments(db.payments), db.paymentByJob, db.paymentByKey, AbsRefunds(db.refunds),
          AbsSettlements(db.settlements), AbsLedger(db.ledger))
  }

  // ---------- where runs start and what commands bring ----------

  /** Between commands every payment is at rest. */
  predicate AtRest(db: Db, p: PaymentId)
    requires p in db.payments
  {
    var pay := db.payments[p];
    && pay.job in db.jobs && Get(db.paymentByJob, pay.job) == Some(p)
    && pay.ref.External? && pay.status in {Held, ReleasePending, Released, PaymentStatus.Refunded}
    && Postable(ReleaseLines(pay.fees)) && Postable(PayoutLines(pay.fees)) && Postable(RefundLines(pay.fees))
    && (EventKey(Release, p) in db.outbox ==> pay.status == Released)
    && (EventKey(Refund, p) in db.outbox ==> pay.status == PaymentStatus.Refunded)
    && (p in db.settlements <==> pay.status == Released)
  }

  predicate RefsDistinct(payments: map<PaymentId, Payment>) {
    forall p, q :: p in payments && q in payments && payments[p].ref == payments[q].ref ==> p == q
  }

  predicate SettledUnderOwnRef(db: Db) {
    forall p :: p in db.settlements ==> p in db.payments && db.settlements[p].ref == db.payments[p].ref
  }

  /** Keys of refunds are used up with their payment. */
  predicate RefundKeysUsed(db: Db) {
    forall e :: e in db.refundByKey ==> e.0 in db.payments && db.payments[e.0].status == PaymentStatus.Refunded
  }

  predicate NoStrays(db: Db) {
    && (forall j :: j in db.paymentByJob ==>
         db.paymentByJob[j] in db.payments && db.payments[db.paymentByJob[j]].job == j)
    && (forall e :: e in db.paymentByKey ==> db.paymentByKey[e] in db.payments)
    && (forall k :: k in db.outbox ==> k.payment in db.payments && db.outbox[k].status == EventStatus.Done)
    && (forall r :: r in db.refunds ==>
          db.refunds[r].payment in db.payments && db.payments[db.refunds[r].payment].status == PaymentStatus.Refunded)
  }

  predicate Drained(db: Db) {
    && (forall p {:trigger db.payments[p]} :: p in db.payments ==> AtRest(db, p))
    && RefsDistinct(db.payments) && SettledUnderOwnRef(db) && RefundKeysUsed(db) && NoStrays(db)
  }

  /** Ids and provider references are new. */
  predicate FreshInput(db: Db, c: Command, ref: Ref) {
    && ref.External? && (forall p :: p in db.payments ==> db.payments[p].ref != ref)
    && (forall r :: r in db.refunds ==> db.refunds[r].ref != Some(ref))
    && (c.FundCmd? ==> c.payment !in db.payments)
    && (c.RefundCmd? ==> c.refund !in db.refunds)
  }

  /** A funded amount is one whose journals the ledger table takes: 5 cents for a mission, 2 for a job. */
  predicate LargeEnough(jobs: map<JobId, Job>, c: Command) {
    c.FundCmd? && c.job in jobs ==> c.amount >= SmallestPostable(jobs[c.job].kind)
  }
}
