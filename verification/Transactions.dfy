/** Each SQL transaction of the payment protocol as a function of the tables: what it answers, decided by its guards in
    the order of the code, and what it writes. A Throw or a refusal leaves the tables as they were: withSqlTransaction
    rolls back on an exception (backend/src/db/runtime.js:20-34). */
module Transactions {
  import opened Options
  import opened Money
  import opened Schema

  // ---------- funding (backend/src/repository/payment_funding.js) ----------

  /** What fundJobAtomic has checked when it inserts a payment. */
  predicate Insertable(db: Db, j: JobId, payer: UserId, amount: nat, id: PaymentId, key: Key) {
    && j in db.jobs && db.jobs[j].status in {Published, Assigned, Funded}
    && !HasPayment(db, j)
    && (key != NoKey ==> (payer, key) !in db.paymentByKey)
    && ValidCents(amount) && id !in db.payments && EventKey(CreateHold, id) !in db.outbox
    && Postable(FundingLines(Breakdown(db.jobs[j].kind, amount)))
  }

  /** What it has checked when it queues a failed hold again. */
  predicate Retryable(db: Db, j: JobId, key: Key) {
    && j in db.jobs && HasPayment(db, j)
    && var pay := db.payments[db.paymentByJob[j]];
       pay.status == HoldFailed && (pay.key == NoKey && key != NoKey ==> (pay.payer, key) !in db.paymentByKey)
  }

  predicate HasPayment(db: Db, j: JobId) { j in db.paymentByJob && db.paymentByJob[j] in db.payments }

  function FundJob(db: Db, j: JobId, payer: UserId, payee: UserId, offer: Option<OfferId>, amount: nat, id: PaymentId,
      key: Key, currency: Currency, now: int): (out: (Db, Reply))
    ensures out.1 !in {Created, Retried} ==> out.0 == db
  {
    var reply := FundReply(db, j, payer, payee, offer, amount, id, key);
    if reply == Created then
      (InsertPayment(db, NewPayment(db.jobs[j], j, payer, payee, amount, id, key, currency), id, offer, now), reply)
    else if reply == Retried then (RetryHold(db, j, payer, key, currency, now), reply)
    else (db, reply)
  }

  function FundReply(db: Db, j: JobId, payer: UserId, payee: UserId, offer: Option<OfferId>, amount: nat, id: PaymentId,
      key: Key): (reply: Reply)
    ensures reply == Created ==> Insertable(db, j, payer, amount, id, key)
    ensures reply == Retried ==> Retryable(db, j, key)
  {
    if j !in db.jobs then Null
    else if db.jobs[j].owner != payer then Throw(Forbidden)
    else if db.jobs[j].status !in {Published, Assigned, Funded} then Throw(InvalidState)
    else if HasPayment(db, j) then FundAgainReply(db, db.payments[db.paymentByJob[j]], key)
    else FundFirstReply(db, j, payer, payee, offer, amount, id, key)
  }

  /** The job has a payment: a failed hold is queued again, anything else is returned as it is. */
  function FundAgainReply(db: Db, pay: Payment, key: Key): Reply {
    if pay.key != NoKey && key != NoKey && pay.key != key then Throw(PaymentAlreadyExists)
    else if pay.status != HoldFailed then Replayed
    else if pay.key == NoKey && key != NoKey && (pay.payer, key) in db.paymentByKey then Throw(UniqueViolation)
    else Retried
  }

  function FundFirstReply(db: Db, j: JobId, payer: UserId, payee: UserId, offer: Option<OfferId>, amount: nat,
      id: PaymentId, key: Key): Reply
    requires j in db.jobs
  {
    if key != NoKey && (payer, key) in db.paymentByKey then
      var prior := Get(db.payments, db.paymentByKey[(payer, key)]);
      if prior.None? || prior.value.job != j || prior.value.amount != amount then Throw(IdempotencyConflict)
      else Replayed
    else if offer.Some? && !Selectable(db, offer.value, j, payee) then Throw(InvalidOfferState)
    else if !ValidCents(amount) then Throw(InvalidAmount)
    else if id in db.payments || RefTaken(db.payments, Placeholder(id), id) then Throw(UniqueViolation)
    else if !Postable(FundingLines(Breakdown(db.jobs[j].kind, amount))) then Throw(JournalRejected)
    else if EventKey(CreateHold, id) in db.outbox then Throw(UniqueViolation)
    else Created
  }

  function RetryHold(db: Db, j: JobId, payer: UserId, key: Key, currency: Currency, now: int): Db
    requires HasPayment(db, j)
  {
    var p := db.paymentByJob[j];
    var newKey := RetryKey(db.payments[p], key);
    ReopenHold(db, p, newKey, RetryPayload(j, payer, p, db.payments[p], newKey, currency), now)
  }

  function RetryKey(pay: Payment, key: Key): Key { if pay.key != NoKey then pay.key else key }

  /** The mapped row carries no fee columns, so this payload would ask for the base amount; an event that exists keeps
      its own. */
  function RetryPayload(j: JobId, payer: UserId, p: PaymentId, pay: Payment, key: Key, currency: Currency): Payload {
    HoldPayload(j, payer, p, pay.amount, pay.amount, currency, if key != NoKey then key else PaymentKey(p))
  }

  function ReopenHold(db: Db, p: PaymentId, newKey: Key, rebuilt: Payload, now: int): Db
    requires p in db.payments
  {
    var pay := db.payments[p];
    var k := EventKey(CreateHold, p);
    var event :=
      if k in db.outbox then db.outbox[k].(status := EventStatus.Pending, availableAt := now, lockedAt := None)
                 else NewEvent(rebuilt, now);
    db.(payments := db.payments[p := pay.(status := HoldPending, key := newKey)],
        paymentByKey := if newKey == NoKey then db.paymentByKey else db.paymentByKey[(pay.payer, newKey) := p],
        outbox := db.outbox[k := event])
  }

  function NewEvent(payload: Payload, now: int): Event {
    Event(EventStatus.Pending, 0, now, None, None, now, payload)
  }

  predicate Selectable(db: Db, o: OfferId, j: JobId, payee: UserId) {
    o in db.offers && db.offers[o].job == j && db.offers[o].status == OfferStatus.Pending
    && db.offers[o].provider == payee
  }

  /** Accept one offer of a job and reject its other pending offers. */
  function ChooseOffer(offers: map<OfferId, Offer>, o: OfferId, j: JobId): (r: map<OfferId, Offer>)
    ensures r.Keys == offers.Keys
  {
    map x | x in offers ::
      if x == o then offers[x].(status := OfferStatus.Accepted)
      else if offers[x].job == j
      && offers[x].status == OfferStatus.Pending then offers[x].(status := OfferStatus.Rejected)
      else offers[x]
  }

  function NewPayment(job: Job, j: JobId, payer: UserId, payee: UserId, amount: nat, id: PaymentId, key: Key,
      currency: Currency): Payment {
    Payment(j, payer, payee, amount, HoldPending, Placeholder(id), key, Breakdown(job.kind, amount), currency)
  }

  /** The writes of a first funding: offers and payment, then job, funding journal and event. */
  function InsertPayment(db: Db, pay: Payment, id: PaymentId, offer: Option<OfferId>, now: int): Db
    requires pay.job in db.jobs
  {
    FundingPosted(db.(
      offers := if offer.Some? then ChooseOffer(db.offers, offer.value, pay.job) else db.offers,
      payments := db.payments[id := pay],
      paymentByJob := db.paymentByJob[pay.job := id],
      paymentByKey := if pay.key == NoKey then db.paymentByKey
                      else db.paymentByKey[(pay.payer, pay.key) := id]), pay, id, now)
  }

  function FundingPosted(db: Db, pay: Payment, id: PaymentId, now: int): Db
    requires pay.job in db.jobs
  {
    var job := db.jobs[pay.job];
    var provider := if job.provider.None? then Some(pay.payee) else job.provider;
    var key := if pay.key != NoKey then pay.key else PaymentKey(id);
    var payload := HoldPayload(pay.job, pay.payer, id, pay.fees.charge, pay.fees.base, pay.currency, key);
    Post(db.(jobs := db.jobs[pay.job := job.(status := Funded, provider := provider)],
             outbox := db.outbox[EventKey(CreateHold, id) := NewEvent(payload, now)]),
         PaymentFund, id, FundingLines(pay.fees))
  }

  // ---------- job steps (backend/src/repository/payment_lifecycle.js) ----------

  /** updateJobSimple with a status patch. */
  function UpdateJob(db: Db, j: JobId, expected: set<JobStatus>, status: JobStatus): (out: (Db, Reply))
    ensures out.1 != Updated ==> out.0 == db
  {
    if j !in db.jobs then (db, Null)
    else if db.jobs[j].status !in expected then (db, Throw(InvalidState))
    else (db.(jobs := SetJobStatus(db.jobs, j, status)), Updated)
  }

  /** transitionJobWithPayment as the accept use case calls it. */
  function AcceptDelivery(db: Db, j: JobId): (out: (Db, Reply))
    ensures out.1 != Updated ==> out.0 == db
  {
    var reply := AcceptDeliveryReply(db, j);
    if reply == Updated then (CompleteJob(db, j, db.paymentByJob[j]), reply) else (db, reply)
  }

  function AcceptDeliveryReply(db: Db, j: JobId): (reply: Reply)
    ensures reply == Updated ==> j in db.jobs && HasPayment(db, j) && db.payments[db.paymentByJob[j]].status == Held
  {
    if j !in db.jobs then Null
    else if db.jobs[j].status !in {Delivered, UnderReview} then Throw(InvalidState)
    else if !HasPayment(db, j) || db.payments[db.paymentByJob[j]].status != Held then Throw(InvalidPaymentState)
    else Updated
  }

  function CompleteJob(db: Db, j: JobId, p: PaymentId): Db
    requires p in db.payments
  {
    db.(jobs := SetJobStatus(db.jobs, j, Completed),
        payments := db.payments[p := db.payments[p].(status := ReleasePending)])
  }

  function AcceptOffer(db: Db, o: OfferId, owner: UserId): (out: (Db, Reply))
    ensures out.1 != Updated ==> out.0 == db
  {
    var reply := AcceptOfferReply(db, o, owner);
    if reply == Updated then (AssignJob(db, o, db.offers[o].job), reply) else (db, reply)
  }

  function AcceptOfferReply(db: Db, o: OfferId, owner: UserId): (reply: Reply)
    ensures reply == Updated ==>
              o in db.offers && db.offers[o].job in db.jobs && db.jobs[db.offers[o].job].status == Published
  {
    if o !in db.offers || db.offers[o].job !in db.jobs then Null
    else
      var job := db.jobs[db.offers[o].job];
      if job.owner != owner then Throw(Forbidden)
      else if job.status != Published || db.offers[o].status != OfferStatus.Pending then Throw(InvalidState)
      else Updated
  }

  function AssignJob(db: Db, o: OfferId, j: JobId): Db
    requires o in db.offers && j in db.jobs
  {
    db.(offers := ChooseOffer(db.offers, o, j),
        jobs := db.jobs[j := db.jobs[j].(provider := Some(db.offers[o].provider), status := Assigned)])
  }

  // ---------- refunds (backend/src/repository/payment_refunds.js) ----------

  function CreateRefund(db: Db, j: JobId, p: PaymentId, owner: UserId, amount: nat, id: RefundId, key: Key,
      createdAt: int): (out: (Db, Reply))
    ensures out.1 != Queued ==> out.0 == db
  {
    var reply := RefundReply(db, j, p, owner, amount, id, key);
    if reply == Queued then (RequestRefundOf(db, j, p, owner, id, key, createdAt), reply) else (db, reply)
  }

  function RefundReply(db: Db, j: JobId, p: PaymentId, owner: UserId, amount: nat, id: RefundId,
      key: Key): (reply: Reply)
    ensures reply == Queued ==> Refundable(db, j, p, id, key)
  {
    if j !in db.jobs then Null
    else if db.jobs[j].owner != owner then Throw(Forbidden)
    else if p !in db.payments || db.payments[p].job != j then Throw(PaymentNotFound)
    else if db.payments[p].status != Held then Throw(InvalidPaymentState)
    else if amount != 0 && amount != db.payments[p].amount then Throw(PartialRefundUnsupported)
    else RowReply(db, p, id, key)
  }

  /** A failed row of the same key is reopened, a row of another status is the answer. */
  function RowReply(db: Db, p: PaymentId, id: RefundId, key: Key): Reply {
    var prior := PriorRefund(db, p, key);
    if prior.Some? && prior.value in db.refunds then
      (if db.refunds[prior.value].status != RefundStatus.Failed then Replayed else Queued)
    else if id in db.refunds then Throw(UniqueViolation)
    else Queued
  }

  predicate Refundable(db: Db, j: JobId, p: PaymentId, id: RefundId, key: Key) {
    && j in db.jobs && p in db.payments && db.payments[p].job == j && db.payments[p].status == Held
    && var r := RequestedRow(db, p, id, key);
       r in db.refunds ==> db.refunds[r].status == RefundStatus.Failed && PriorRefund(db, p, key) == Some(r)
  }

  /** The refund row an accepted request works on. */
  function RequestedRow(db: Db, p: PaymentId, id: RefundId, key: Key): RefundId {
    var prior := PriorRefund(db, p, key);
    if prior.Some? && prior.value in db.refunds then prior.value else id
  }

  function RequestRefundOf(db: Db, j: JobId, p: PaymentId, owner: UserId, id: RefundId, key: Key, now: int): Db
    requires p in db.payments
  {
    var r := RequestedRow(db, p, id, key);
    QueueRefund(WriteRow(db, p, r, key, now), j, p, db.payments[p], owner, id, key, now)
  }

  /** The failed row is pending again, or a new pending row is inserted. */
  function WriteRow(db: Db, p: PaymentId, r: RefundId, key: Key, now: int): Db
    requires p in db.payments
  {
    var row := if r in db.refunds then db.refunds[r].(status := RefundStatus.Pending, ref := None)
               else RefundRow(p, db.payments[p].amount, RefundStatus.Pending, None, key, now);
    db.(refunds := db.refunds[r := row],
        refundByKey := if r in db.refunds || key == NoKey then db.refundByKey else db.refundByKey[(p, key) := r])
  }

  /** The row a request reopens, when the key was used before. */
  function PriorRefund(db: Db, p: PaymentId, key: Key): Option<RefundId> {
    if key == NoKey then None else Get(db.refundByKey, (p, key))
  }

  /** The second half of createRefundAtomic: the payment waits and the event is upserted. The payload names the id of
      this request, and the upsert keeps the payload an earlier request wrote. */
  function QueueRefund(db: Db, j: JobId, p: PaymentId, pay: Payment, owner: UserId, id: RefundId, key: Key,
      now: int): Db {
    var k := EventKey(Refund, p);
    var event :=
      if k !in db.outbox
        then NewEvent(RefundPayload(j, owner, p, id, pay.ref, if key != NoKey then key else RefundKey(id)), now)
      else if db.outbox[k].status == EventStatus.Done then db.outbox[k]
      else db.outbox[k].(status := EventStatus.Pending, availableAt := now);
    db.(payments := db.payments[p := pay.(status := RefundPending)], outbox := db.outbox[k := event])
  }

  predicate TokenMatches(event: Event, token: Option<nat>) {
    token.None? || event.token == token
  }

  function MarkDone(event: Event): Event {
    event.(status := EventStatus.Done, lockedAt := None)
  }

  function DoneEvent(db: Db, k: EventKey): Db
    requires k in db.outbox
  {
    db.(outbox := db.outbox[k := MarkDone(db.outbox[k])])
  }

  function RefundedJob(jobs: map<JobId, Job>, j: JobId): map<JobId, Job> {
    if j in jobs then SetJobStatus(jobs, j, if jobs[j].provider.None? then Published else Assigned) else jobs
  }

  function CompleteRefund(db: Db, k: EventKey, j: JobId, p: PaymentId, r: RefundId, ref: Ref,
      token: Option<nat>): (out: (Db, Reply))
    ensures out.1 !in {Committed, AlreadyDone} ==> out.0 == db
  {
    var reply := RefundCommitReply(db, k, j, p, r, ref, token);
    if reply == Committed then (FinishRefund(DoneEvent(db, k), p, r, Some(ref), PaymentRefund), reply)
    else if reply == AlreadyDone then (DoneEvent(db, k), reply)
    else (db, reply)
  }

  function RefundCommitReply(db: Db, k: EventKey, j: JobId, p: PaymentId, r: RefundId, ref: Ref,
      token: Option<nat>): (reply: Reply)
    ensures reply == Committed ==>
              k in db.outbox && p in db.payments && db.payments[p].status == RefundPending && PendingRefund(db, p, r)
    ensures reply == AlreadyDone ==>
              k in db.outbox && p in db.payments && db.payments[p].status == PaymentStatus.Refunded
  {
    if k !in db.outbox then Refused(OutboxNotFound)
    else if !TokenMatches(db.outbox[k], token) then Refused(StaleLease)
    else if p !in db.payments || db.payments[p].job != j || j !in db.jobs then Refused(NoSuchPayment)
    else if r !in db.refunds || db.refunds[r].payment != p then Refused(NoSuchRefund)
    else if db.payments[p].status == PaymentStatus.Refunded
    && db.refunds[r].status == RefundStatus.Refunded then AlreadyDone
    else if db.payments[p].status != RefundPending
    || db.refunds[r].status != RefundStatus.Pending then Refused(WrongRefundState)
    else if RefundRefTaken(db.refunds, ref, r) then Throw(UniqueViolation)
    else if !Postable(RefundLines(db.payments[p].fees)) then Throw(JournalRejected)
    else Committed
  }

  function FinishRefund(db: Db, p: PaymentId, r: RefundId, ref: Option<Ref>, reference: Reference): Db
    requires p in db.payments && r in db.refunds
  {
    Post(db.(refunds := db.refunds[r := db.refunds[r].(status := RefundStatus.Refunded, ref := ref)],
             payments := db.payments[p := db.payments[p].(status := PaymentStatus.Refunded)],
             jobs := RefundedJob(db.jobs, db.payments[p].job)),
         reference, p, RefundLines(db.payments[p].fees))
  }

  // ---------- outbox (backend/src/repository/outbox.js) ----------

  function CompleteHold(db: Db, k: EventKey, j: JobId, p: PaymentId, ref: Ref, token: Option<nat>): (out: (Db, Reply))
    ensures out.1 !in {Committed, AlreadyDone} ==> out.0 == db
  {
    var reply := HoldCommitReply(db, k, j, p, ref, token);
    if reply == Committed then (Confirm(DoneEvent(db, k), p, ref), reply)
    else if reply == AlreadyDone then (DoneEvent(db, k), reply)
    else (db, reply)
  }

  function HoldCommitReply(db: Db, k: EventKey, j: JobId, p: PaymentId, ref: Ref, token: Option<nat>): (reply: Reply)
    ensures reply == Committed ==> k in db.outbox && p in db.payments && db.payments[p].status == HoldPending
    ensures reply == AlreadyDone ==> k in db.outbox && p in db.payments && db.payments[p].status == Held
  {
    if k !in db.outbox then Refused(OutboxNotFound)
    else if !TokenMatches(db.outbox[k], token) then Refused(StaleLease)
    else if p !in db.payments || db.payments[p].job != j then Refused(NoSuchPayment)
    else if db.payments[p].status == Held
           then (if db.payments[p].ref != ref then Throw(ProviderRefMismatch) else AlreadyDone)
    else if db.payments[p].status != HoldPending then Refused(WrongPaymentState)
    else if RefTaken(db.payments, ref, p) then Throw(UniqueViolation)
    else Committed
  }

  /** The hold is confirmed under the provider's reference. */
  function Confirm(db: Db, p: PaymentId, ref: Ref): Db
    requires p in db.payments
  {
    db.(payments := db.payments[p := db.payments[p].(status := Held, ref := ref)])
  }

  function EnqueueRelease(db: Db, j: JobId, owner: UserId, p: PaymentId, now: int): (out: (Db, Reply))
    ensures out.1 != Queued ==> out.0 == db
  {
    var reply := ReleaseReply(db, j, owner, p);
    if reply == Queued then (QueueRelease(db, j, owner, p, now), reply) else (db, reply)
  }

  function ReleaseReply(db: Db, j: JobId, owner: UserId, p: PaymentId): (reply: Reply)
    ensures reply == Queued ==> p in db.payments && db.payments[p].status in {ReleasePending, ReleaseFailed}
  {
    if j !in db.jobs then Null
    else if db.jobs[j].owner != owner then Throw(Forbidden)
    else if db.jobs[j].status != Completed then Throw(InvalidState)
    else if p !in db.payments || db.payments[p].job != j
    || db.payments[p].status !in {ReleasePending, ReleaseFailed} then
      Throw(InvalidPaymentState)
    else Queued
  }

  /** The payment waits and the event is upserted with a fresh count of attempts; the payload of an existing event
      stays. */
  function QueueRelease(db: Db, j: JobId, owner: UserId, p: PaymentId, now: int): Db
    requires p in db.payments
  {
    var pay := db.payments[p];
    var k := EventKey(Release, p);
    var event :=
      if k !in db.outbox
        then NewEvent(ReleasePayload(j, owner, p, pay.ref, if pay.key != NoKey then pay.key else ReleaseKey(p)), now)
      else if db.outbox[k].status == EventStatus.Done then db.outbox[k]
      else db.outbox[k].(status := EventStatus.Pending, attempts := 0, availableAt := now, lockedAt := None);
    db.(payments := db.payments[p := pay.(status := ReleasePending)], outbox := db.outbox[k := event])
  }

  predicate Claimable(event: Event, now: int, lease: nat) {
    && (event.status == EventStatus.Pending
        || (event.status == EventStatus.Processing && event.lockedAt.Some? && event.lockedAt.value < now - lease))
    && event.availableAt <= now
  }

  /** claimOutboxEvent once the candidate row is picked: one more attempt, under a new lease token. */
  function Claim(db: Db, k: EventKey, now: int): Db
    requires k in db.outbox
  {
    var e := db.outbox[k];
    db.(outbox := db.outbox[k := e.(status := EventStatus.Processing, attempts := e.attempts + 1, lockedAt := Some(now),
                                    token := Some(db.nextId))],
        nextId := db.nextId + 1)
  }

  function CompleteRelease(db: Db, k: EventKey, j: JobId, p: PaymentId, token: Option<nat>): (out: (Db, Reply))
    ensures out.1 !in {Committed, AlreadyDone} ==> out.0 == db
  {
    var reply := ReleaseCommitReply(db, k, j, p, token);
    if reply == Committed
      then (FinishRelease(DoneEvent(db, k), p, db.payments[p].ref, PaymentRelease, PaymentPayout), reply)
    else if reply == AlreadyDone then (DoneEvent(db, k), reply)
    else (db, reply)
  }

  function ReleaseCommitReply(db: Db, k: EventKey, j: JobId, p: PaymentId, token: Option<nat>): (reply: Reply)
    ensures reply == Committed ==> k in db.outbox && p in db.payments && db.payments[p].status == ReleasePending
    ensures reply == AlreadyDone ==> k in db.outbox && p in db.payments && db.payments[p].status == Released
  {
    if k !in db.outbox then Refused(OutboxNotFound)
    else if !TokenMatches(db.outbox[k], token) then Refused(StaleLease)
    else if p !in db.payments || db.payments[p].job != j then Refused(NoSuchPayment)
    else if db.payments[p].status == Released then AlreadyDone
    else if db.payments[p].status != ReleasePending then Refused(WrongPaymentState)
    else if !Postable(ReleaseLines(db.payments[p].fees))
    || !Postable(PayoutLines(db.payments[p].fees)) then Throw(JournalRejected)
    else if SettlementRefTaken(db.settlements, db.payments[p].ref, p) then Throw(UniqueViolation)
    else Committed
  }

  function Settle(settlements: map<PaymentId, Settlement>, p: PaymentId, ref: Ref, amount: nat,
      currency: Currency): map<PaymentId, Settlement> {
    if p in settlements then settlements[p := settlements[p].(ref := ref)]
    else settlements[p := Settlement(ref, amount, currency)]
  }

  function FinishRelease(db: Db, p: PaymentId, ref: Ref, releaseReference: Reference, payoutReference: Reference): Db
    requires p in db.payments
  {
    var pay := db.payments[p];
    var db1 :=
      db.(payments := db.payments[p := pay.(status := Released)], jobs := SetJobStatus(db.jobs, pay.job, Settled),
                   settlements := Settle(db.settlements, p, ref, pay.fees.payout, pay.currency));
    Post(Post(db1, releaseReference, p, ReleaseLines(pay.fees)), payoutReference, p, PayoutLines(pay.fees))
  }

  /** Two to the power of attempts - 1 times the base, never above 300. */
  function Capped(attempts: nat, base: nat): (c: nat)
    ensures c <= 300
  {
    if attempts <= 1 then (if base < 300 then base else 300)
    else var half := Capped(attempts - 1, base); if 2 * half < 300 then 2 * half else 300
  }

  /** outboxRetryDelaySeconds; jitter is the 16-bit number read from the hash, so the factor is 0.75 + jitter /
      131070. */
  function RetryDelay(attempts: nat, base: nat, jitter: nat): (s: nat)
    ensures 1 <= s <= 300
  {
    var rounded := RoundRatio(Capped(attempts, base) * (196605 + 2 * jitter), 262140);
    if rounded < 1 then 1 else if rounded > 300 then 300 else rounded
  }

  function AfterFailure(event: Event, maxAttempts: nat, now: int, jitter: nat): Event {
    var terminal := event.attempts >= maxAttempts;
    event.(status := if terminal then EventStatus.Failed else EventStatus.Pending,
           availableAt := if terminal then now else now + RetryDelay(event.attempts, 5, jitter),
           lockedAt := None, token := None)
  }

  function FailEvent(db: Db, k: EventKey, token: Option<nat>, maxAttempts: nat, now: int,
      jitter: nat): (out: (Db, Reply))
    ensures out.1 !in {RetryLater, Terminal} ==> out.0 == db
  {
    var reply := FailReply(db, k, token, maxAttempts);
    if reply in {RetryLater, Terminal}
      then (FailWith(db, k, AfterFailure(db.outbox[k], maxAttempts, now, jitter)), reply) else (db, reply)
  }

  function FailReply(db: Db, k: EventKey, token: Option<nat>, maxAttempts: nat): (reply: Reply)
    ensures reply in {RetryLater, Terminal} ==> k in db.outbox && TokenMatches(db.outbox[k], token)
  {
    if k !in db.outbox then Null
    else if !TokenMatches(db.outbox[k], token) then Stale
    else if db.outbox[k].attempts >= maxAttempts then Terminal
    else RetryLater
  }

  /** The event as it is after the failure, and the compensation when it is given up. */
  function FailWith(db: Db, k: EventKey, failed: Event): Db
    requires k in db.outbox
  {
    var db1 := db.(outbox := db.outbox[k := failed]);
    if failed.status == EventStatus.Failed then Compensate(db1, k) else db1
  }

  /** The compensation of a terminal failure; every UPDATE is guarded by the state it leaves. */
  function Compensate(db: Db, k: EventKey): Db
    requires k in db.outbox
  {
    var payload := db.outbox[k].payload;
    var refunds :=
      if k.kind == Refund && payload.RefundPayload? && payload.refund in db.refunds
         && db.refunds[payload.refund].status == RefundStatus.Pending
      then db.refunds[payload.refund := db.refunds[payload.refund].(status := RefundStatus.Failed)]
      else db.refunds;
    db.(refunds := refunds, payments := CompensatePayment(db.payments, k))
  }

  function CompensatePayment(payments: map<PaymentId, Payment>, k: EventKey): map<PaymentId, Payment> {
    if k.payment !in payments then payments
    else
      var pay := payments[k.payment];
      match (k.kind, pay.status)
      case (CreateHold, HoldPending) => payments[k.payment := pay.(status := HoldFailed)]
      case (Refund, RefundPending) => payments[k.payment := pay.(status := Held)]
      case (Release, ReleasePending) => payments[k.payment := pay.(status := ReleaseFailed)]
      case _ => payments
  }

  // ---------- webhooks (backend/src/repository/payment_webhooks.js) ----------

  datatype WebhookType = PaymentHeld | PaymentReleased | PaymentRefunded

  predicate ProviderRefMatches(pay: Payment, ref: Ref) {
    ref == NoRef || pay.ref == NoRef || pay.ref == ref
  }

  predicate PendingRefund(db: Db, p: PaymentId, r: RefundId) {
    r in db.refunds && db.refunds[r].payment == p && db.refunds[r].status == RefundStatus.Pending
  }

  /** A pending refund of the payment that was created last. */
  predicate LatestPendingRefund(db: Db, p: PaymentId, r: RefundId) {
    && PendingRefund(db, p, r)
    && forall s :: s in db.refunds && PendingRefund(db, p, s) ==> db.refunds[s].createdAt <= db.refunds[r].createdAt
  }

  predicate HasPendingRefund(db: Db, p: PaymentId) { exists r :: r in db.refunds && PendingRefund(db, p, r) }

  function Logged(db: Db, id: WebhookId): Db { db.(webhooks := db.webhooks + {id}) }

  /** The webhook's reference, or else the stored one. */
  function SettledRef(pay: Payment, ref: Ref): Ref { if ref != NoRef then ref else pay.ref }

  function RefundedRef(db: Db, row: RefundId, ref: Ref): Option<Ref>
    requires row in db.refunds
  {
    if ref != NoRef then Some(ref) else db.refunds[row].ref
  }

  /** applyPaymentWebhookAtomic; row is the refund that the query returned, when it returned one. */
  function ApplyWebhook(db: Db, id: WebhookId, kind: WebhookType, p: PaymentId, ref: Ref,
      row: RefundId): (out: (Db, Reply))
    requires kind == PaymentRefunded && HasPendingRefund(db, p) ==> LatestPendingRefund(db, p, row)
    ensures out.1 != Processed ==> out.0 == db
  {
    var reply := WebhookReply(db, id, kind, p, ref, row);
    if reply == Processed then (WebhookWrites(db, id, kind, p, ref, row), reply) else (db, reply)
  }

  /** The state in which a payment waits for a webhook. */
  predicate Awaits(status: PaymentStatus, kind: WebhookType) {
    match kind
    case PaymentHeld => status == HoldPending
    case PaymentReleased => status in {ReleasePending, ReleaseFailed}
    case PaymentRefunded => status == RefundPending
  }

  function WebhookReply(db: Db, id: WebhookId, kind: WebhookType, p: PaymentId, ref: Ref, row: RefundId): (reply: Reply)
    requires kind == PaymentRefunded && HasPendingRefund(db, p) ==> LatestPendingRefund(db, p, row)
    ensures reply == Processed ==>
      p in db.payments && (Awaits(db.payments[p].status, kind) && kind == PaymentRefunded ==> PendingRefund(db, p, row))
  {
    if id in db.webhooks then Duplicate
    else if p !in db.payments then Throw(PaymentNotFound)
    else if !ProviderRefMatches(db.payments[p], ref) && kind != PaymentRefunded then Throw(ProviderRefMismatch)
    else if !Awaits(db.payments[p].status, kind) then Processed
    else MoveReply(db, kind, p, ref, if HasPendingRefund(db, p) then Some(row) else None)
  }

  /** Whether a payment that waits for the webhook can be moved; picked is the pending refund, if there is one. */
  function MoveReply(db: Db, kind: WebhookType, p: PaymentId, ref: Ref, picked: Option<RefundId>): Reply
    requires p in db.payments && (kind == PaymentRefunded && picked.Some? ==> picked.value in db.refunds)
  {
    var pay := db.payments[p];
    match kind
    case PaymentHeld => if RefTaken(db.payments, ref, p) then Throw(UniqueViolation) else Processed
    case PaymentReleased =>
      if !Postable(ReleaseLines(pay.fees)) || !Postable(PayoutLines(pay.fees)) then Throw(JournalRejected)
      else if SettlementRefTaken(db.settlements, SettledRef(pay, ref), p) then Throw(UniqueViolation)
      else Processed
    case PaymentRefunded =>
      if picked.None? then Throw(RefundNotFound)
      else
        var newRef := RefundedRef(db, picked.value, ref);
        if newRef.Some? && RefundRefTaken(db.refunds, newRef.value, picked.value) then Throw(UniqueViolation)
        else if !Postable(RefundLines(pay.fees)) then Throw(JournalRejected)
        else Processed
  }

  /** The move itself. */
  function MovedByWebhook(db: Db, kind: WebhookType, p: PaymentId, ref: Ref, row: RefundId): Db
    requires p in db.payments && (kind == PaymentRefunded ==> row in db.refunds)
  {
    match kind
    case PaymentHeld => Confirm(db, p, ref)
    case PaymentReleased => FinishRelease(db, p, SettledRef(db.payments[p], ref), PaymentWebhook, PaymentWebhook)
    case PaymentRefunded => FinishRefund(db, p, row, RefundedRef(db, row, ref), PaymentWebhook)
  }

  /** The event is logged, and a payment that waits for it moves. */
  function WebhookWrites(db: Db, id: WebhookId, kind: WebhookType, p: PaymentId, ref: Ref, row: RefundId): Db
    requires p in db.payments
             && (Awaits(db.payments[p].status, kind) && kind == PaymentRefunded ==> PendingRefund(db, p, row))
  {
    if !Awaits(db.payments[p].status, kind) then Logged(db, id) else MovedByWebhook(Logged(db, id), kind, p, ref, row)
  }

  // ---------- administration and publication ----------

  function CreateJob(db: Db, j: JobId, owner: UserId, kind: Kind): (out: (Db, Reply))
    ensures out.1 != Created ==> out.0 == db
  {
    if j in db.jobs then (db, Throw(UniqueViolation))
    else (db.(jobs := db.jobs[j := Job(owner, None, kind, Draft)]), Created)
  }

  function SubmitOffer(db: Db, o: OfferId, j: JobId, provider: UserId, price: nat): (out: (Db, Reply))
    ensures out.1 != Created ==> out.0 == db
  {
    if o in db.offers || j !in db.jobs || price == 0 then (db, Throw(UniqueViolation))
    else if exists x ::
      x in db.offers && db.offers[x].job == j && db.offers[x].provider == provider
      && db.offers[x].status == OfferStatus.Pending
      then (db, Throw(UniqueViolation))
    else (db.(offers := db.offers[o := Offer(j, provider, price, OfferStatus.Pending)]), Created)
  }

  /** moderateJob as coded: a settled job is not in the list of locked ones. */
  function Moderate(db: Db, j: JobId, status: JobStatus): (out: (Db, Reply))
    ensures out.1 != Updated ==> out.0 == db
  {
    if status !in {Draft, Published, Cancelled} then (db, Throw(InvalidStatus))
    else if j !in db.jobs then (db, Null)
    else if db.jobs[j].status in {Completed, Assigned, Funded, InProgress, Delivered, UnderReview}
           then (db, Throw(JobLocked))
    else (db.(jobs := SetJobStatus(db.jobs, j, status)), Updated)
  }

  /** deleteJob; offers and applications go with the job (ON DELETE CASCADE). */
  function DeleteJob(db: Db, j: JobId): (out: (Db, Reply))
    ensures out.1 != Updated ==> out.0 == db
  {
    if j !in db.jobs then (db, Null)
    else if db.jobs[j].status !in {Draft, Published} then (db, Throw(JobLocked))
    else if j in db.paymentByJob then (db, Throw(JobHasFinancialRecords))
    else (db.(jobs := db.jobs - {j},
              offers := map o | o in db.offers && db.offers[o].job != j :: db.offers[o],
              applications := map a | a in db.applications && db.applications[a].job != j ::
                db.applications[a]), Updated)
  }

  /** The part of account deletion that touches jobs (backend/src/repository/privacy.js). */
  function ForgetProvider(db: Db, u: UserId): Db {
    db.(jobs := map j | j in db.jobs ::
      if db.jobs[j].provider == Some(u) && db.jobs[j].status in {Draft, Published} then db.jobs[j].(provider := None)
      else db.jobs[j])
  }

  // ---------- recruitment (backend/src/repository/applications.js) ----------

  function Apply(db: Db, a: ApplicationId, j: JobId, candidate: UserId): (out: (Db, Reply))
    ensures out.1 != Created ==> out.0 == db
  {
    if a in db.applications || j !in db.jobs then (db, Throw(UniqueViolation))
    else if exists x :: x in db.applications && db.applications[x].job == j && db.applications[x].candidate == candidate
                        && db.applications[x].status == ApplicationStatus.Pending then (db, Throw(UniqueViolation))
    else (db.(applications := db.applications[a := Application(j, candidate, ApplicationStatus.Pending)]), Created)
  }

  /** transitionJobApplication: one guarded UPDATE. */
  function TransitionApplication(db: Db, a: ApplicationId, from: set<ApplicationStatus>,
      to: ApplicationStatus): (out: (Db, Reply))
    ensures out.1 != Updated ==> out.0 == db
  {
    if a !in db.applications || db.applications[a].status !in from then (db, Null)
    else (db.(applications := db.applications[a := db.applications[a].(status := to)]), Updated)
  }

  function TransitionCandidateApplication(db: Db, a: ApplicationId, candidate: UserId, from: set<ApplicationStatus>,
      to: ApplicationStatus): (out: (Db, Reply))
    ensures out.1 != Updated ==> out.0 == db
  {
    if a !in db.applications || db.applications[a].candidate != candidate then (db, Null)
    else TransitionApplication(db, a, from, to)
  }

  predicate OtherHired(db: Db, a: ApplicationId, j: JobId) {
    exists x ::
      x in db.applications && x != a && db.applications[x].job == j
      && db.applications[x].status == ApplicationStatus.Accepted
  }

  function TransitionEmployerApplication(db: Db, a: ApplicationId, owner: UserId, from: set<ApplicationStatus>,
      to: ApplicationStatus, expectedJob: JobId): (out: (Db, Reply))
    ensures out.1 != Updated ==> out.0 == db
  {
    var reply := EmployerReply(db, a, owner, from, to, expectedJob);
    if reply == Updated then (MoveApplication(db, a, db.applications[a].job, to), reply) else (db, reply)
  }

  function EmployerReply(db: Db, a: ApplicationId, owner: UserId, from: set<ApplicationStatus>, to: ApplicationStatus,
      expectedJob: JobId): (reply: Reply)
    ensures reply == Updated ==>
      && a in db.applications && db.applications[a].job in db.jobs && db.applications[a].status in from
      && (to == ApplicationStatus.Accepted ==>
            !OtherHired(db, a, db.applications[a].job)
            && db.jobs[db.applications[a].job].status in {Published, Assigned})
  {
    if a !in db.applications || db.applications[a].job !in db.jobs then Null
    else
      var app := db.applications[a];
      var job := db.jobs[app.job];
      if app.job != expectedJob then Throw(ApplicationJobMismatch)
      else if job.owner != owner then Throw(Forbidden)
      else if job.kind != Salaried then Throw(JobOnly)
      else if app.status !in from then Throw(InvalidApplicationState)
      else if to == ApplicationStatus.Accepted && OtherHired(db, a, app.job) then Throw(CandidateAlreadyHired)
      else if to == ApplicationStatus.Accepted && job.status !in {Published, Assigned} then Throw(JobNotHirable)
      else Updated
  }

  /** The application moves; a hire also makes the candidate the provider of the job. */
  function MoveApplication(db: Db, a: ApplicationId, j: JobId, to: ApplicationStatus): Db
    requires a in db.applications && j in db.jobs
  {
    var app := db.applications[a];
    db.(applications := db.applications[a := app.(status := to)],
        jobs := if to != ApplicationStatus.Accepted then db.jobs
                else db.jobs[j := db.jobs[j].(provider := Some(app.candidate), status := Assigned)])
  }
}
