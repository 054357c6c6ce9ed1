/** What owners' requests do in every reachable state, in terms of the rows alone: exactly which are accepted, what an
    accepted one writes, and what the others are refused for. */
module RequestEffects {
  import opened Options
  import opened Money
  import opened Schema
  import opened Transactions
  import opened Protocol
  import opened Invariant
  import opened Preservation
  import opened Reachability
  import Worker

  // ---------- funding a job that has a payment ----------

  /** Somebody's payment of this payer carries the key. */
  predicate KeyUsed(db: Db, payer: UserId, key: Key) {
    exists q :: q in db.payments && db.payments[q].payer == payer && db.payments[q].key == key
  }

  predicate Open(status: JobStatus) { status == Published || status == Assigned || status == Funded }

  /** The same payment waits for its hold again, under the key it has or else the key of the request, and its event is
      pending from now on. */
  predicate HoldQueuedAgain(db: Db, next: Db, p: PaymentId, key: Key, now: int)
    requires p in db.payments && EventKey(CreateHold, p) in db.outbox
  {
    var pay := db.payments[p];
    var k := EventKey(CreateHold, p);
    var newKey := if pay.key == NoKey then key else pay.key;
    && next.payments == db.payments[p := pay.(status := HoldPending, key := newKey)]
    && next.outbox == db.outbox[k := db.outbox[k].(status := EventStatus.Pending, availableAt := now, lockedAt := None)]
    && next == db.(payments := next.payments, paymentByKey := next.paymentByKey, outbox := next.outbox)
  }

  lemma KeyUsedIff(db: Db, payer: UserId, key: Key)
    requires KeyIndexOk(db.payments, db.paymentByKey) && key != NoKey
    ensures (payer, key) in db.paymentByKey <==> KeyUsed(db, payer, key)
  {
    if (payer, key) in db.paymentByKey {
      assert db.payments[db.paymentByKey[(payer, key)]].payer == payer;
    }
  }

  lemma FundAgainTable(db: Db, pay: Payment, key: Key)
    requires KeyIndexOk(db.payments, db.paymentByKey)
    ensures FundAgainReply(db, pay, key)
            == if pay.key != NoKey && key != NoKey && key != pay.key then Throw(PaymentAlreadyExists)
               else if pay.status != HoldFailed then Replayed
               else if pay.key == NoKey && key != NoKey && KeyUsed(db, pay.payer, key) then Throw(UniqueViolation)
               else Retried
  {
    if key != NoKey {
      KeyUsedIff(db, pay.payer, key);
    }
  }

  lemma FundAgainCase(db: Db, p: PaymentId, payer: UserId, payee: UserId, chosen: Option<OfferId>, amount: nat,
      id: PaymentId, key: Key)
    requires p in db.payments && db.payments[p].job in db.jobs && HasPayment(db, db.payments[p].job)
             && db.paymentByJob[db.payments[p].job] == p
    ensures var pay := db.payments[p];
            FundReply(db, pay.job, payer, payee, chosen, amount, id, key)
            == if db.jobs[pay.job].owner != payer then Throw(Forbidden)
               else if !Open(db.jobs[pay.job].status) then Throw(InvalidState)
               else FundAgainReply(db, pay, key)
  {
  }

  lemma RetryWrites(db: Db, p: PaymentId, payer: UserId, key: Key, currency: Currency, now: int)
    requires p in db.payments && HasPayment(db, db.payments[p].job) && db.paymentByJob[db.payments[p].job] == p
    requires EventKey(CreateHold, p) in db.outbox
    ensures HoldQueuedAgain(db, RetryHold(db, db.payments[p].job, payer, key, currency, now), p, key, now)
  {
  }

  lemma PaymentOfJob(db: Db, p: PaymentId)
    requires Core(db) && p in db.payments
    ensures db.payments[p].job in db.jobs && HasPayment(db, db.payments[p].job)
            && db.paymentByJob[db.payments[p].job] == p && EventKey(CreateHold, p) in db.outbox
  {
    ViewAt(db, p);
    EventInView(db, EventKey(CreateHold, p));
  }

  /** Every funding request for a job that has a payment, whatever payment, provider, offer or amount it names: it is
      refused to others than the owner, when the job is not open, and under another key than the stored one; it queues a
      failed hold again, unless it brings a key that another payment of the payer has; and otherwise it changes
      nothing. */
  lemma FundAgain(steps: seq<Step>, p: PaymentId, payer: UserId, payee: UserId, chosen: Option<OfferId>, amount: nat,
      id: PaymentId, key: Key, currency: Currency, now: int)
    requires p in Run(INITIAL, steps).db.payments
    ensures var db := Run(INITIAL, steps).db;
            var pay := db.payments[p];
            var (next, reply) := FundJob(db, pay.job, payer, payee, chosen, amount, id, key, currency, now);
            && pay.job in db.jobs && EventKey(CreateHold, p) in db.outbox
            && reply == (if db.jobs[pay.job].owner != payer then Throw(Forbidden)
                         else if !Open(db.jobs[pay.job].status) then Throw(InvalidState)
                         else if pay.key != NoKey && key != NoKey && key != pay.key then Throw(PaymentAlreadyExists)
                         else if pay.status != HoldFailed then Replayed
                         else if pay.key == NoKey && key != NoKey && KeyUsed(db, pay.payer, key) then
                           Throw(UniqueViolation)
                         else Retried)
            && (reply == Retried ==> HoldQueuedAgain(db, next, p, key, now))
            && (reply != Retried ==> next == db)
  {
    var db := Run(INITIAL, steps).db;
    assert Core(db) by { ReachableWorldOk(steps); }
    PaymentOfJob(db, p);
    FundAgainCase(db, p, payer, payee, chosen, amount, id, key);
    FundAgainTable(db, db.payments[p], key);
    RetryWrites(db, p, payer, key, currency, now);
  }

  lemma FundStep(w: World, j: JobId, payer: UserId, payee: UserId, chosen: Option<OfferId>, amount: nat, id: PaymentId,
      key: Key, currency: Currency, now: int)
    ensures Next(w, Pay(Fund(j, payer, payee, chosen, amount, id, key, currency, now))).db
            == FundJob(w.db, j, payer, payee, chosen, amount, id, key, currency, now).0
  {
  }

  lemma QueuedAgainIsClaimable(db: Db, next: Db, p: PaymentId, key: Key, now: int)
    requires p in db.payments && EventKey(CreateHold, p) in db.outbox && HoldQueuedAgain(db, next, p, key, now)
    ensures Worker.Ready(next, EventKey(CreateHold, p), now)
  {
  }

  /** The owner's funding request for a job whose hold failed is accepted if and only if the job is open and the keys do
      not conflict: the request carries none, the stored one, or one that no payment of the payer uses when none is
      stored. It then waits for its hold again under the stored key, or else the request's, and its event can be claimed
      at once. */
  lemma FailedHoldIsRetriedIff(steps: seq<Step>, p: PaymentId, payee: UserId, chosen: Option<OfferId>, amount: nat,
      id: PaymentId, key: Key, currency: Currency, now: int)
    requires p in Run(INITIAL, steps).db.payments && Run(INITIAL, steps).db.payments[p].status == HoldFailed
    ensures var db := Run(INITIAL, steps).db;
            var pay := db.payments[p];
            var k := EventKey(CreateHold, p);
            && pay.job in db.jobs && k in db.outbox
            && var owner := db.jobs[pay.job].owner;
               var s := Fund(pay.job, owner, payee, chosen, amount, id, key, currency, now);
               var next := Next(Run(INITIAL, steps), Pay(s)).db;
               if Open(db.jobs[pay.job].status)
                  && (key == NoKey || key == pay.key || (pay.key == NoKey && !KeyUsed(db, pay.payer, key)))
               then HoldQueuedAgain(db, next, p, key, now) && Worker.Ready(next, k, now)
               else next == db
  {
    var w := Run(INITIAL, steps);
    assert w.db.payments[p].job in w.db.jobs by { ReachableWorldOk(steps); }
    var j, owner := w.db.payments[p].job, w.db.jobs[w.db.payments[p].job].owner;
    FundAgain(steps, p, owner, payee, chosen, amount, id, key, currency, now);
    FundStep(w, j, owner, payee, chosen, amount, id, key, currency, now);
    var (next, reply) := FundJob(w.db, j, owner, payee, chosen, amount, id, key, currency, now);
    if reply == Retried {
      QueuedAgainIsClaimable(w.db, next, p, key, now);
    }
  }

  // ---------- funding a job that has none ----------

  /** The offer is pending, of this job and by this payee. */
  predicate OfferFits(db: Db, o: OfferId, j: JobId, payee: UserId) {
    o in db.offers && db.offers[o] == Offer(j, payee, db.offers[o].price, OfferStatus.Pending)
  }

  /** From one cent to a thousand million euros. */
  predicate AmountFits(amount: nat) { 1 <= amount <= 100_000_000_000 }

  /** Large enough for a platform fee of a cent: five cents for a mission, two for a job. */
  predicate FeeFits(kind: Kind, amount: nat) { amount >= match kind case Mission => 5 case Salaried => 2 }

  /** A payment carries, or was given by the provider, the reference that the new one would wait under. */
  predicate NamesPlaceholder(db: Db, id: PaymentId) {
    exists q :: q in db.payments && db.payments[q].ref == Placeholder(id)
  }

  lemma FundFirstTable(db: Db, j: JobId, payer: UserId, payee: UserId, chosen: Option<OfferId>, amount: nat,
      id: PaymentId, key: Key)
    requires Core(db) && j in db.jobs && !HasPayment(db, j)
    ensures FundFirstReply(db, j, payer, payee, chosen, amount, id, key)
            == if key != NoKey && KeyUsed(db, payer, key) then Throw(IdempotencyConflict)
               else if chosen.Some? && !OfferFits(db, chosen.value, j, payee) then Throw(InvalidOfferState)
               else if !AmountFits(amount) then Throw(InvalidAmount)
               else if id in db.payments || NamesPlaceholder(db, id) then Throw(UniqueViolation)
               else if !FeeFits(db.jobs[j].kind, amount) then Throw(JournalRejected)
               else Created
  {
    if key != NoKey {
      KeyUsedIff(db, payer, key);
    }
    if amount > 0 {
      PostableIffLargeEnough(db.jobs[j].kind, amount);
    }
    if id !in db.payments {
      FreshPaymentHasNoRows(db, id);
      assert RefTaken(db.payments, Placeholder(id), id) <==> NamesPlaceholder(db, id);
    }
    if chosen.Some? {
      assert Selectable(db, chosen.value, j, payee) <==> OfferFits(db, chosen.value, j, payee);
    }
  }

  /** The new payment waits under its placeholder, the job is funded, and the payee provides it unless it had a
      provider; one funding journal; one event that asks the provider for the charge, under the payment's key or its
      default key. */
  predicate FundedNow(db: Db, next: Db, j: JobId, payer: UserId, payee: UserId, amount: nat, id: PaymentId, key: Key,
      currency: Currency, now: int)
    requires j in db.jobs
  {
    var job := db.jobs[j];
    var fees := Breakdown(job.kind, amount);
    var payload :=
      HoldPayload(j, payer, id, fees.charge, amount, currency, if key == NoKey then PaymentKey(id) else key);
    && next.payments == db.payments[id := Payment(j, payer, payee, amount, HoldPending, Placeholder(id), key, fees,
                                                  currency)]
    && next.jobs == db.jobs[j := job.(status := Funded,
                                      provider := if job.provider == None then Some(payee) else job.provider)]
    && next.outbox == db.outbox[EventKey(CreateHold, id) :=
                                Event(EventStatus.Pending, 0, now, None, None, now, payload)]
    && next.ledger == db.ledger + [Entry(db.nextId, PaymentFund, id, Line(PlatformCash, fees.charge, 0)),
                                   Entry(db.nextId, PaymentFund, id, Line(EscrowLiability, 0, fees.payout)),
                                   Entry(db.nextId, PaymentFund, id, Line(PlatformFeeRevenue, 0, fees.platformFee))]
    && next == db.(payments := next.payments, jobs := next.jobs, outbox := next.outbox, ledger := next.ledger,
                   offers := next.offers, paymentByJob := next.paymentByJob, paymentByKey := next.paymentByKey,
                   nextId := db.nextId + 1)
  }

  /** The chosen offer is accepted, the other pending offers of the job are rejected, all others are as they were. */
  predicate OfferChosen(offers: map<OfferId, Offer>, next: map<OfferId, Offer>, chosen: OfferId, j: JobId) {
    && next.Keys == offers.Keys
    && forall o :: o in offers ==>
         next[o] == if o == chosen then offers[o].(status := OfferStatus.Accepted)
                    else if offers[o].job == j && offers[o].status == OfferStatus.Pending then
                      offers[o].(status := OfferStatus.Rejected)
                    else offers[o]
  }

  lemma InsertWrites(db: Db, j: JobId, payer: UserId, payee: UserId, chosen: Option<OfferId>, amount: nat,
      id: PaymentId, key: Key, currency: Currency, now: int)
    requires j in db.jobs
    ensures var pay := NewPayment(db.jobs[j], j, payer, payee, amount, id, key, currency);
            var next := InsertPayment(db, pay, id, chosen, now);
            && FundedNow(db, next, j, payer, payee, amount, id, key, currency, now)
            && if chosen == None then next.offers == db.offers else OfferChosen(db.offers, next.offers, chosen.value, j)
  {
  }

  lemma FundFirstCase(db: Db, j: JobId, payer: UserId, payee: UserId, chosen: Option<OfferId>, amount: nat,
      id: PaymentId, key: Key)
    requires !HasPayment(db, j)
    ensures FundReply(db, j, payer, payee, chosen, amount, id, key)
            == if j !in db.jobs then Null
               else if db.jobs[j].owner != payer then Throw(Forbidden)
               else if !Open(db.jobs[j].status) then Throw(InvalidState)
               else FundFirstReply(db, j, payer, payee, chosen, amount, id, key)
  {
  }

  predicate Unpaid(db: Db, j: JobId) { forall p :: p in db.payments ==> db.payments[p].job != j }

  lemma UnpaidIff(db: Db, j: JobId)
    requires Core(db)
    ensures Unpaid(db, j) <==> !HasPayment(db, j)
  {
    if HasPayment(db, j) {
      assert db.payments[db.paymentByJob[j]].job == j;
    }
  }

  /** Every funding request for a job without a payment: exactly which are accepted, what each of the others is refused
      for, and all that an accepted one writes. */
  lemma FundFirst(steps: seq<Step>, j: JobId, payer: UserId, payee: UserId, chosen: Option<OfferId>, amount: nat,
      id: PaymentId, key: Key, currency: Currency, now: int)
    requires Unpaid(Run(INITIAL, steps).db, j)
    ensures var db := Run(INITIAL, steps).db;
            var (next, reply) := FundJob(db, j, payer, payee, chosen, amount, id, key, currency, now);
            && reply == (if j !in db.jobs then Null
                         else if db.jobs[j].owner != payer then Throw(Forbidden)
                         else if !Open(db.jobs[j].status) then Throw(InvalidState)
                         else if key != NoKey && KeyUsed(db, payer, key) then Throw(IdempotencyConflict)
                         else if chosen.Some? && !OfferFits(db, chosen.value, j, payee) then Throw(InvalidOfferState)
                         else if !AmountFits(amount) then Throw(InvalidAmount)
                         else if id in db.payments || NamesPlaceholder(db, id) then Throw(UniqueViolation)
                         else if !FeeFits(db.jobs[j].kind, amount) then Throw(JournalRejected)
                         else Created)
            && (reply == Created ==>
                 FundedNow(db, next, j, payer, payee, amount, id, key, currency, now)
                 && if chosen == None then next.offers == db.offers
                    else OfferChosen(db.offers, next.offers, chosen.value, j))
            && (reply != Created ==> next == db)
  {
    var db := Run(INITIAL, steps).db;
    assert Core(db) by { ReachableWorldOk(steps); }
    UnpaidIff(db, j);
    FundFirstCase(db, j, payer, payee, chosen, amount, id, key);
    if j in db.jobs {
      FundFirstTable(db, j, payer, payee, chosen, amount, id, key);
      InsertWrites(db, j, payer, payee, chosen, amount, id, key, currency, now);
    }
  }

  // ---------- refund requests ----------

  /** The row of this payment and key, when there is one. */
  predicate IsRowOf(db: Db, r: RefundId, p: PaymentId, key: Key) {
    key != NoKey && r in db.refunds && db.refunds[r].payment == p && db.refunds[r].key == key
  }

  predicate HasRow(db: Db, p: PaymentId, key: Key) { exists r :: r in db.refunds && IsRowOf(db, r, p, key) }

  lemma PriorIs(db: Db, p: PaymentId, key: Key, r: RefundId)
    requires Core(db) && IsRowOf(db, r, p, key)
    ensures PriorRefund(db, p, key) == Some(r)
  {
  }

  lemma NoPrior(db: Db, p: PaymentId, key: Key)
    requires Core(db) && !HasRow(db, p, key)
    ensures PriorRefund(db, p, key) == None
  {
    if key != NoKey && (p, key) in db.refundByKey {
      assert IsRowOf(db, db.refundByKey[(p, key)], p, key);
    }
  }

  /** The payment waits for its refund, and its refund event is pending from now on: the one it has, or a first one,
      which names the row. */
  predicate RefundQueuedNow(db: Db, next: Db, j: JobId, p: PaymentId, owner: UserId, r: RefundId, key: Key, now: int)
    requires p in db.payments
  {
    var pay := db.payments[p];
    var k := EventKey(Refund, p);
    var first := RefundPayload(j, owner, p, r, pay.ref, if key == NoKey then RefundKey(r) else key);
    && next.payments == db.payments[p := pay.(status := RefundPending)]
    && next.outbox == db.outbox[k := if k in db.outbox
                                     then db.outbox[k].(status := EventStatus.Pending, availableAt := now)
                                     else Event(EventStatus.Pending, 0, now, None, None, now, first)]
    && next == db.(payments := next.payments, outbox := next.outbox, refunds := next.refunds,
                   refundByKey := next.refundByKey)
  }

  lemma QueueWrites(db: Db, db1: Db, j: JobId, p: PaymentId, owner: UserId, id: RefundId, key: Key, now: int)
    requires p in db.payments && db1 == db.(refunds := db1.refunds, refundByKey := db1.refundByKey)
    requires EventKey(Refund, p) in db.outbox ==> db.outbox[EventKey(Refund, p)].status != EventStatus.Done
    ensures RefundQueuedNow(db, QueueRefund(db1, j, p, db.payments[p], owner, id, key, now), j, p, owner, id, key, now)
    ensures QueueRefund(db1, j, p, db.payments[p], owner, id, key, now).refunds == db1.refunds
  {
  }

  lemma HeldRefundNotDone(db: Db, p: PaymentId)
    requires Core(db) && p in db.payments && db.payments[p].status == Held
    ensures EventKey(Refund, p) in db.outbox ==> db.outbox[EventKey(Refund, p)].status != EventStatus.Done
  {
    if EventKey(Refund, p) in db.outbox {
      HeldRefundIsDead(db, p);
    }
  }

  /** What is checked before any row is looked at. */
  lemma RefundGuards(db: Db, j: JobId, p: PaymentId, owner: UserId, amount: nat, id: RefundId, key: Key)
    ensures RefundReply(db, j, p, owner, amount, id, key)
            == if j !in db.jobs then Null
               else if db.jobs[j].owner != owner then Throw(Forbidden)
               else if p !in db.payments || db.payments[p].job != j then Throw(PaymentNotFound)
               else if db.payments[p].status != Held then Throw(InvalidPaymentState)
               else if amount != 0 && amount != db.payments[p].amount then Throw(PartialRefundUnsupported)
               else RowReply(db, p, id, key)
  {
  }

  /** Nothing stands in the way of a refund request but the rows: owner, payment, state and amount are right. */
  predicate MayAsk(db: Db, j: JobId, p: PaymentId, owner: UserId, amount: nat) {
    && j in db.jobs && db.jobs[j].owner == owner && p in db.payments && db.payments[p].job == j
    && db.payments[p].status == Held && (amount == 0 || amount == db.payments[p].amount)
  }

  /** A refund request by somebody else, for another payment than the job's, for one that is not held, or for a part of
      the amount is refused, each for its reason. */
  lemma RefundRefused(steps: seq<Step>, j: JobId, p: PaymentId, owner: UserId, amount: nat, id: RefundId, key: Key,
      now: int)
    requires !MayAsk(Run(INITIAL, steps).db, j, p, owner, amount)
    ensures var db := Run(INITIAL, steps).db;
            CreateRefund(db, j, p, owner, amount, id, key, now)
            == (db, if j !in db.jobs then Null
                    else if db.jobs[j].owner != owner then Throw(Forbidden)
                    else if p !in db.payments || db.payments[p].job != j then Throw(PaymentNotFound)
                    else if db.payments[p].status != Held then Throw(InvalidPaymentState)
                    else Throw(PartialRefundUnsupported))
  {
    RefundGuards(Run(INITIAL, steps).db, j, p, owner, amount, id, key);
  }

  /** The row is pending again, without a reference. */
  predicate RowReopened(db: Db, next: Db, r: RefundId)
    requires r in db.refunds
  {
    next.refunds == db.refunds[r := db.refunds[r].(status := RefundStatus.Pending, ref := None)]
    && next.refundByKey == db.refundByKey
  }

  lemma ReopenWrites(db: Db, j: JobId, p: PaymentId, owner: UserId, id: RefundId, key: Key, now: int, r: RefundId)
    requires p in db.payments && r in db.refunds && PriorRefund(db, p, key) == Some(r)
    requires EventKey(Refund, p) in db.outbox ==> db.outbox[EventKey(Refund, p)].status != EventStatus.Done
    ensures var next := RequestRefundOf(db, j, p, owner, id, key, now);
            RefundQueuedNow(db, next, j, p, owner, id, key, now) && RowReopened(db, next, r)
  {
    QueueWrites(db, WriteRow(db, p, r, key, now), j, p, owner, id, key, now);
  }

  /** A request under a key that the payment has a refund row for reopens that row if and only if it has failed; any
      other row is the answer, and nothing changes. */
  lemma RefundAgain(steps: seq<Step>, j: JobId, p: PaymentId, owner: UserId, amount: nat, id: RefundId, key: Key,
      now: int, r: RefundId)
    requires var db := Run(INITIAL, steps).db; MayAsk(db, j, p, owner, amount) && IsRowOf(db, r, p, key)
    ensures var db := Run(INITIAL, steps).db;
            var (next, reply) := CreateRefund(db, j, p, owner, amount, id, key, now);
            && EventKey(Refund, p) in db.outbox
            && if db.refunds[r].status == RefundStatus.Failed
               then reply == Queued && RefundQueuedNow(db, next, j, p, owner, r, key, now) && RowReopened(db, next, r)
               else reply == Replayed && next == db
  {
    var db := Run(INITIAL, steps).db;
    assert Core(db) by { ReachableWorldOk(steps); }
    PriorIs(db, p, key, r);
    RowMeansEvent(db, p, r);
    HeldRefundNotDone(db, p);
    RefundGuards(db, j, p, owner, amount, id, key);
    ReopenWrites(db, j, p, owner, id, key, now, r);
  }

  /** A new pending row for the whole amount, found under its key from now on. */
  predicate RowInserted(db: Db, next: Db, p: PaymentId, r: RefundId, key: Key, now: int)
    requires p in db.payments
  {
    && next.refunds == db.refunds[r := RefundRow(p, db.payments[p].amount, RefundStatus.Pending, None, key, now)]
    && next.refundByKey == if key == NoKey then db.refundByKey else db.refundByKey[(p, key) := r]
  }

  lemma InsertRowWrites(db: Db, j: JobId, p: PaymentId, owner: UserId, id: RefundId, key: Key, now: int)
    requires p in db.payments && id !in db.refunds && PriorRefund(db, p, key) == None
    requires EventKey(Refund, p) in db.outbox ==> db.outbox[EventKey(Refund, p)].status != EventStatus.Done
    ensures var next := RequestRefundOf(db, j, p, owner, id, key, now);
            RefundQueuedNow(db, next, j, p, owner, id, key, now) && RowInserted(db, next, p, id, key, now)
  {
    QueueWrites(db, WriteRow(db, p, id, key, now), j, p, owner, id, key, now);
  }

  /** A request without a key, or under one that the payment has no refund row for, inserts a row unless its id is
      taken. */
  lemma RefundFirst(steps: seq<Step>, j: JobId, p: PaymentId, owner: UserId, amount: nat, id: RefundId, key: Key,
      now: int)
    requires var db := Run(INITIAL, steps).db; MayAsk(db, j, p, owner, amount) && !HasRow(db, p, key)
    ensures var db := Run(INITIAL, steps).db;
            var (next, reply) := CreateRefund(db, j, p, owner, amount, id, key, now);
            if id !in db.refunds
            then reply == Queued && RefundQueuedNow(db, next, j, p, owner, id, key, now)
                 && RowInserted(db, next, p, id, key, now)
            else reply == Throw(UniqueViolation) && next == db
  {
    var db := Run(INITIAL, steps).db;
    assert Core(db) by { ReachableWorldOk(steps); }
    NoPrior(db, p, key);
    HeldRefundNotDone(db, p);
    RefundGuards(db, j, p, owner, amount, id, key);
    if id !in db.refunds {
      InsertRowWrites(db, j, p, owner, id, key, now);
    }
  }

  lemma RefundStep(w: World, j: JobId, p: PaymentId, owner: UserId, amount: nat, id: RefundId, key: Key, now: int)
    ensures Next(w, Pay(RequestRefund(j, p, owner, amount, id, key, now))).db
            == CreateRefund(w.db, j, p, owner, amount, id, key, now).0
  {
  }

  /** The payment waits for its refund, a worker can ask for it at once, and there is a pending row of this key without
      a reference. */
  ghost predicate UnderWay(db: Db, next: Db, p: PaymentId, key: Key, now: int)
    requires p in db.payments
  {
    && Get(next.payments, p) == Some(db.payments[p].(status := RefundPending))
    && Worker.Ready(next, EventKey(Refund, p), now)
    && exists r :: r in next.refunds && next.refunds[r].payment == p && next.refunds[r].key == key
                   && next.refunds[r].status == RefundStatus.Pending && next.refunds[r].ref == None
  }

  lemma AgainIsUnderWay(db: Db, next: Db, j: JobId, p: PaymentId, owner: UserId, r: RefundId, key: Key, now: int)
    requires p in db.payments && RefundQueuedNow(db, next, j, p, owner, r, key, now)
    requires IsRowOf(db, r, p, key) && RowReopened(db, next, r)
    ensures UnderWay(db, next, p, key, now)
  {
    assert r in next.refunds;
  }

  lemma FirstIsUnderWay(db: Db, next: Db, j: JobId, p: PaymentId, owner: UserId, r: RefundId, key: Key, now: int)
    requires p in db.payments && RefundQueuedNow(db, next, j, p, owner, r, key, now)
    requires RowInserted(db, next, p, r, key, now)
    ensures UnderWay(db, next, p, key, now)
  {
    assert r in next.refunds;
  }

  lemma OneRowPerKey(db: Db, p: PaymentId, key: Key, r: RefundId)
    requires Core(db) && IsRowOf(db, r, p, key)
    ensures forall s :: s in db.refunds && IsRowOf(db, s, p, key) ==> s == r
  {
  }

  predicate HasFailedRow(db: Db, p: PaymentId, key: Key) {
    exists r :: r in db.refunds && IsRowOf(db, r, p, key) && db.refunds[r].status == RefundStatus.Failed
  }

  lemma AgainAccepted(steps: seq<Step>, j: JobId, p: PaymentId, owner: UserId, amount: nat, id: RefundId, key: Key,
      now: int, r: RefundId)
    requires var db := Run(INITIAL, steps).db; MayAsk(db, j, p, owner, amount) && IsRowOf(db, r, p, key)
    ensures var db := Run(INITIAL, steps).db;
            var next := CreateRefund(db, j, p, owner, amount, id, key, now).0;
            && HasRow(db, p, key) && if HasFailedRow(db, p, key) then UnderWay(db, next, p, key, now) else next == db
  {
    var db := Run(INITIAL, steps).db;
    assert Core(db) by { ReachableWorldOk(steps); }
    OneRowPerKey(db, p, key, r);
    RefundAgain(steps, j, p, owner, amount, id, key, now, r);
    if db.refunds[r].status == RefundStatus.Failed {
      AgainIsUnderWay(db, CreateRefund(db, j, p, owner, amount, id, key, now).0, j, p, owner, r, key, now);
    }
  }

  lemma FirstAccepted(steps: seq<Step>, j: JobId, p: PaymentId, owner: UserId, amount: nat, id: RefundId, key: Key,
      now: int)
    requires var db := Run(INITIAL, steps).db; MayAsk(db, j, p, owner, amount) && !HasRow(db, p, key)
    ensures var db := Run(INITIAL, steps).db;
            var next := CreateRefund(db, j, p, owner, amount, id, key, now).0;
            && !HasFailedRow(db, p, key) && if id !in db.refunds then UnderWay(db, next, p, key, now) else next == db
  {
    var db := Run(INITIAL, steps).db;
    RefundFirst(steps, j, p, owner, amount, id, key, now);
    if id !in db.refunds {
      FirstIsUnderWay(db, CreateRefund(db, j, p, owner, amount, id, key, now).0, j, p, owner, id, key, now);
    }
  }

  /** Who gets a refund under way: the owner of a held payment's job, for the whole amount, and if and only if the key
      has no row of the payment yet and the new id is free, or has one that failed. */
  lemma RefundAcceptedIff(steps: seq<Step>, j: JobId, p: PaymentId, owner: UserId, amount: nat, id: RefundId, key: Key,
      now: int)
    ensures var db := Run(INITIAL, steps).db;
            var next := Next(Run(INITIAL, steps), Pay(RequestRefund(j, p, owner, amount, id, key, now))).db;
            if MayAsk(db, j, p, owner, amount)
               && (HasFailedRow(db, p, key) || (!HasRow(db, p, key) && id !in db.refunds))
            then UnderWay(db, next, p, key, now) else next == db
  {
    var db := Run(INITIAL, steps).db;
    RefundStep(Run(INITIAL, steps), j, p, owner, amount, id, key, now);
    if !MayAsk(db, j, p, owner, amount) {
      RefundRefused(steps, j, p, owner, amount, id, key, now);
    } else if HasRow(db, p, key) {
      var r :| r in db.refunds && IsRowOf(db, r, p, key);
      AgainAccepted(steps, j, p, owner, amount, id, key, now, r);
    } else {
      FirstAccepted(steps, j, p, owner, amount, id, key, now);
    }
  }

  // ---------- accepting a delivery and asking for the release ----------

  lemma AcceptTable(db: Db, j: JobId, p: PaymentId)
    requires Core(db) && p in db.payments && db.payments[p].job == j
    ensures var (next, reply) := AcceptDelivery(db, j);
            && j in db.jobs
            && reply == (if db.jobs[j].status != Delivered && db.jobs[j].status != UnderReview then Throw(InvalidState)
                         else if db.payments[p].status != Held then Throw(InvalidPaymentState)
                         else Updated)
            && next == if reply != Updated then db
                       else db.(jobs := db.jobs[j := db.jobs[j].(status := Completed)],
                                payments := db.payments[p := db.payments[p].(status := ReleasePending)])
  {
    PaymentOfJob(db, p);
  }

  lemma AcceptStep(w: World, j: JobId)
    ensures Next(w, Pay(Accept(j))).db == AcceptDelivery(w.db, j).0
  {
  }

  /** Every acceptance of a delivery: the job has to be delivered or under review and its payment held; then the job is
      completed and the payment waits for its release. */
  lemma AcceptOutcome(steps: seq<Step>, j: JobId, p: PaymentId)
    requires var db := Run(INITIAL, steps).db; p in db.payments && db.payments[p].job == j
    ensures var db := Run(INITIAL, steps).db;
            var (next, reply) := AcceptDelivery(db, j);
            && j in db.jobs
            && Next(Run(INITIAL, steps), Pay(Accept(j))).db == next
            && reply == (if db.jobs[j].status != Delivered && db.jobs[j].status != UnderReview then Throw(InvalidState)
                         else if db.payments[p].status != Held then Throw(InvalidPaymentState)
                         else Updated)
            && next == if reply != Updated then db
                       else db.(jobs := db.jobs[j := db.jobs[j].(status := Completed)],
                                payments := db.payments[p := db.payments[p].(status := ReleasePending)])
  {
    assert Core(Run(INITIAL, steps).db) by { ReachableWorldOk(steps); }
    AcceptTable(Run(INITIAL, steps).db, j, p);
    AcceptStep(Run(INITIAL, steps), j);
  }

  /** Without a payment there is nothing to accept. */
  lemma AcceptUnpaid(steps: seq<Step>, j: JobId)
    requires Unpaid(Run(INITIAL, steps).db, j)
    ensures var db := Run(INITIAL, steps).db;
            AcceptDelivery(db, j)
            == (db, if j !in db.jobs then Null
                    else if db.jobs[j].status != Delivered && db.jobs[j].status != UnderReview then Throw(InvalidState)
                    else Throw(InvalidPaymentState))
  {
    assert Core(Run(INITIAL, steps).db) by { ReachableWorldOk(steps); }
    UnpaidIff(Run(INITIAL, steps).db, j);
  }

  /** The payment waits for its release, and the release event is pending from now on with all attempts ahead: the one
      it has, or a first one under the payment's key or its default key. */
  predicate ReleaseQueuedNow(db: Db, next: Db, j: JobId, owner: UserId, p: PaymentId, now: int)
    requires p in db.payments
  {
    var pay := db.payments[p];
    var k := EventKey(Release, p);
    var first := ReleasePayload(j, owner, p, pay.ref, if pay.key == NoKey then ReleaseKey(p) else pay.key);
    && next.payments == db.payments[p := pay.(status := ReleasePending)]
    && next.outbox == db.outbox[k := if k in db.outbox
                                     then db.outbox[k].(status := EventStatus.Pending, attempts := 0,
                                                        availableAt := now, lockedAt := None)
                                     else Event(EventStatus.Pending, 0, now, None, None, now, first)]
    && next == db.(payments := next.payments, outbox := next.outbox)
  }

  lemma ReleaseWrites(db: Db, j: JobId, owner: UserId, p: PaymentId, now: int)
    requires p in db.payments
    requires EventKey(Release, p) in db.outbox ==> db.outbox[EventKey(Release, p)].status != EventStatus.Done
    ensures ReleaseQueuedNow(db, QueueRelease(db, j, owner, p, now), j, owner, p, now)
    ensures Worker.Ready(QueueRelease(db, j, owner, p, now), EventKey(Release, p), now)
  {
  }

  predicate AwaitsRelease(status: PaymentStatus) { status == ReleasePending || status == ReleaseFailed }

  lemma ReleaseTable(db: Db, j: JobId, owner: UserId, p: PaymentId)
    ensures ReleaseReply(db, j, owner, p)
            == if j !in db.jobs then Null
               else if db.jobs[j].owner != owner then Throw(Forbidden)
               else if db.jobs[j].status != Completed then Throw(InvalidState)
               else if p in db.payments && db.payments[p].job == j && AwaitsRelease(db.payments[p].status) then Queued
               else Throw(InvalidPaymentState)
  {
  }

  lemma ReleaseStep(w: World, j: JobId, owner: UserId, p: PaymentId, now: int)
    ensures Next(w, Pay(RequestRelease(j, owner, p, now))).db == EnqueueRelease(w.db, j, owner, p, now).0
  {
  }

  lemma QueuedRelease(db: Db, j: JobId, owner: UserId, p: PaymentId, now: int)
    requires Core(db) && ReleaseReply(db, j, owner, p) == Queued
    ensures var next := EnqueueRelease(db, j, owner, p, now).0;
            && p in db.payments && ReleaseQueuedNow(db, next, j, owner, p, now)
            && Worker.Ready(next, EventKey(Release, p), now)
  {
    Worker.ReleaseNotDone(db, p);
    ReleaseWrites(db, j, owner, p, now);
  }

  /** Every request for a release: it is accepted exactly from the owner of a completed job for the job's payment while
      that waits for its release or after its release failed, and its event can then be claimed at once. */
  lemma ReleaseOutcome(steps: seq<Step>, j: JobId, owner: UserId, p: PaymentId, now: int)
    ensures var db := Run(INITIAL, steps).db;
            var (next, reply) := EnqueueRelease(db, j, owner, p, now);
            && Next(Run(INITIAL, steps), Pay(RequestRelease(j, owner, p, now))).db == next
            && reply == (if j !in db.jobs then Null
                         else if db.jobs[j].owner != owner then Throw(Forbidden)
                         else if db.jobs[j].status != Completed then Throw(InvalidState)
                         else if p in db.payments && db.payments[p].job == j && AwaitsRelease(db.payments[p].status)
                           then Queued
                         else Throw(InvalidPaymentState))
            && if reply == Queued
               then ReleaseQueuedNow(db, next, j, owner, p, now) && Worker.Ready(next, EventKey(Release, p), now)
               else next == db
  {
    var db := Run(INITIAL, steps).db;
    ReleaseTable(db, j, owner, p);
    ReleaseStep(Run(INITIAL, steps), j, owner, p, now);
    if ReleaseReply(db, j, owner, p) == Queued {
      assert Core(db) by { ReachableWorldOk(steps); }
      QueuedRelease(db, j, owner, p, now);
    }
  }
}
